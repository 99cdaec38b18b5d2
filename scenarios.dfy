/** The scenario catalogue of game/scenarios.go: three constant scenarios,
    each with its objectives, network and file system. */
module Scenarios {
  import Net
  import Fs
  import Paths

  /** A mission objective. `kind` is the source's Type: "command", "connect"
      or "data". */
  datatype Objective = Objective(description: string, kind: string, target: string, completed: bool)

  datatype Scenario = Scenario(name: string, description: string, objectives: seq<Objective>,
                               networkNodes: seq<Net.Node>, fileSystems: map<string, Fs.Directory>,
                               initialSecurityLevel: int)

  const CommandKind := "command"
  const ConnectKind := "connect"
  const DataKind := "data"

  predicate OpenObjectives(objs: seq<Objective>) {
    forall i :: 0 <= i < |objs| ==> !objs[i].completed
  }

  predicate KnownKinds(objs: seq<Objective>) {
    forall i :: 0 <= i < |objs| ==> objs[i].kind in {CommandKind, ConnectKind, DataKind}
  }

  predicate DistinctIPs(ns: seq<Net.Node>) {
    forall a, b :: 0 <= a < b < |ns| ==> ns[a].ip != ns[b].ip
  }

  /** Every "connect" target is the IP of a node of the scenario. */
  predicate ConnectTargetsExist(sc: Scenario) {
    forall i :: 0 <= i < |sc.objectives| && sc.objectives[i].kind == ConnectKind ==>
      exists j :: 0 <= j < |sc.networkNodes| && sc.networkNodes[j].ip == sc.objectives[i].target
  }

  /** There is a root directory and each subdirectory named in it has an
      entry "/<name>". */
  predicate RootComplete(fs: map<string, Fs.Directory>) {
    && "/" in fs
    && forall i :: 0 <= i < |fs["/"].subdirs| ==> "/" + fs["/"].subdirs[i] in fs
  }

  /** Every "data" target is a file of some directory. */
  predicate DataTargetsExist(sc: Scenario) {
    forall i :: 0 <= i < |sc.objectives| && sc.objectives[i].kind == DataKind ==>
      exists d :: d in sc.fileSystems && sc.objectives[i].target in sc.fileSystems[d].files
  }

  /** Every "data" target is a bare file name that the root directory does
      not hold, so reading it from "/", where the session stays, fails. */
  predicate DataOutOfReach(sc: Scenario) {
    forall i :: 0 <= i < |sc.objectives| && sc.objectives[i].kind == DataKind ==>
      && Paths.NoSlash(sc.objectives[i].target)
      && ("/" in sc.fileSystems ==> sc.objectives[i].target !in sc.fileSystems["/"].files)
  }

  predicate WellFormed(sc: Scenario) {
    && OpenObjectives(sc.objectives)
    && KnownKinds(sc.objectives)
    && DistinctIPs(sc.networkNodes)
    && ConnectTargetsExist(sc)
    && RootComplete(sc.fileSystems)
    && DataTargetsExist(sc)
  }

  // ----- file contents -----

  const WelcomeText := "Welcome to HackSim Terminal.\nYou are on a mission to breach the corporate network.\nUse 'help' command to see available tools."
  const UserNotesText := "Remember to change default passwords on all servers.\nNeed to patch the database server vulnerability next week."
  const NetworkConfText := "# Network Configuration\n\nGATEWAY=192.168.1.1\nSUBNET=255.255.255.0\nDNS=8.8.8.8\n\n# Servers\nDBSERVER=192.168.1.10\nWEBSERVER=192.168.1.20\nMAILSERVER=192.168.1.30"
  const MissionText := "MISSION: DATA HEIST\n\nYour objective is to extract customer data from the target company.\nTheir file server contains valuable information that our client needs.\nRemember to cover your tracks when exiting the system."
  const LogText := "System log file\n2023-06-15 12:42:13 - System startup\n2023-06-15 13:15:27 - Security scan completed\n2023-06-15 14:30:01 - Backup completed"
  const SecurityPolicyText := "[SECURITY POLICY DOCUMENT]\n\nCompany: Acme Corporation\nClassification: CONFIDENTIAL\n\nPasswords must be changed every 30 days.\nTwo-factor authentication required for all admin accounts.\nFile server access restricted to IT department only.\n\nEmergency contact: security@acmecorp.com"
  const CustomersText := "[CUSTOMER DATABASE - ENCRYPTED]\n\nThis file appears to be a database containing customer information.\nIt includes names, addresses, emails, and possibly payment information.\n\nThe data is valuable but needs to be decrypted with proper credentials."
  const TakeoverText := "MISSION: SYSTEM TAKEOVER\n\nObjective: Gain control of the target facility's operational systems.\nThis is a high-security industrial control system.\nProceed with caution - detection will trigger immediate countermeasures."
  const ControlCfgText := "# Control System Configuration\n\nMAIN_CONTROLLER=172.16.1.200\nBACKUP_CONTROLLER=172.16.1.201\nSCADA_INTERFACE=172.16.1.150\n\nSECURITY_LEVEL=MAXIMUM\nAUTO_LOCKDOWN=TRUE"
  const CredentialsText := "[ENCRYPTED FILE]\n\nThis file contains encrypted system credentials.\nFormat: AES-256\nAccess Level Required: Administrator\n\nDecryption will require advanced tools."
  const FacilityMapText := "FACILITY LAYOUT\n\nLevel 1: Administration\nLevel 2: Operations\nLevel 3: Control Room [RESTRICTED]\nLevel 4: Primary Systems [RESTRICTED]\n\nSecurity checkpoints at all level transitions."

  function Ssh(version: string, credentials: map<string, string>): Net.Service {
    Net.Service("SSH", version, false, credentials)
  }

  // ----- Network Breach -----

  const NetworkBreachObjectives := [
    Objective("Discover available nodes on the network", CommandKind, "scan", false),
    Objective("Connect to the gateway server at 192.168.1.1", ConnectKind, "192.168.1.1", false),
    Objective("Find and read the network configuration file", DataKind, "network.conf", false),
    Objective("Connect to the database server at 192.168.1.10", ConnectKind, "192.168.1.10", false),
    Objective("Crack the admin credentials", CommandKind, "crack", false),
    Objective("Download the user database file", CommandKind, "download", false)
  ]

  const NetworkBreachNodes := [
    Net.Node("Entry Point", "192.168.1.5",
      map["22" := Ssh("OpenSSH 7.9", map["user" := "password123"]),
          "80" := Net.Service("HTTP", "Apache 2.4.38", true, map[])],
      1, "Workstation"),
    Net.Node("Gateway Server", "192.168.1.1",
      map["22" := Ssh("OpenSSH 7.4", map["admin" := "gateway2023"]),
          "80" := Net.Service("HTTP", "Nginx 1.14.2", false, map[]),
          "443" := Net.Service("HTTPS", "Nginx 1.14.2", false, map[])],
      0, "Router"),
    Net.Node("Database Server", "192.168.1.10",
      map["22" := Ssh("OpenSSH 8.0", map["dbadmin" := "db$ecureP@ss"]),
          "3306" := Net.Service("MySQL", "8.0.21", true, map["root" := "mysql2023!"])],
      0, "Database Server")
  ]

  const NetworkBreachFiles := map[
    "/" := Fs.Directory("/",
      map["welcome.txt" := WelcomeText],
      ["home", "etc"], "rwx"),
    "/home" := Fs.Directory("home",
      map["user_notes.txt" := UserNotesText],
      [], "rwx"),
    "/etc" := Fs.Directory("etc",
      map["network.conf" := NetworkConfText],
      [], "r-x")
  ]

  function NetworkBreachScenario(): (sc: Scenario)
    ensures sc.name == "Network Breach" && |sc.objectives| == 6 && sc.initialSecurityLevel == 3
  {
    Scenario("Network Breach", "Infiltrate a corporate network and access sensitive data",
             NetworkBreachObjectives, NetworkBreachNodes, NetworkBreachFiles, 3)
  }

  // ----- Data Heist -----

  const DataHeistObjectives := [
    Objective("Scan the target network", CommandKind, "scan", false),
    Objective("Connect to the web server at 10.0.1.20", ConnectKind, "10.0.1.20", false),
    Objective("Exploit the web server vulnerability", CommandKind, "exploit", false),
    Objective("Connect to the file server at 10.0.1.30", ConnectKind, "10.0.1.30", false),
    Objective("Find and read the security policy document", DataKind, "security_policy.pdf", false),
    Objective("Download the customer database", DataKind, "customers.db", false),
    Objective("Cover your tracks by clearing log files", CommandKind, "clear", false)
  ]

  const DataHeistNodes := [
    Net.Node("Entry Point", "10.0.1.5",
      map["22" := Ssh("OpenSSH 8.2", map["guest" := "guest123"])],
      1, "Workstation"),
    Net.Node("Web Server", "10.0.1.20",
      map["22" := Ssh("OpenSSH 7.6", map[]),
          "80" := Net.Service("HTTP", "Apache 2.4.29", true, map[]),
          "443" := Net.Service("HTTPS", "Apache 2.4.29", true, map[])],
      0, "Web Server"),
    Net.Node("File Server", "10.0.1.30",
      map["22" := Ssh("OpenSSH 7.9", map[]),
          "21" := Net.Service("FTP", "vsftpd 3.0.3", false, map[]),
          "445" := Net.Service("SMB", "Samba 4.9.5", true, map[])],
      0, "File Server")
  ]

  const DataHeistFiles := map[
    "/" := Fs.Directory("/",
      map["mission.txt" := MissionText],
      ["var", "mnt"], "rwx"),
    "/var" := Fs.Directory("var",
      map["log.txt" := LogText],
      [], "rwx"),
    "/mnt" := Fs.Directory("mnt",
      map["security_policy.pdf" := SecurityPolicyText,
          "customers.db" := CustomersText],
      [], "r-x")
  ]

  function DataHeistScenario(): (sc: Scenario)
    ensures sc.name == "Data Heist" && |sc.objectives| == 7 && sc.initialSecurityLevel == 5
  {
    Scenario("Data Heist", "Extract valuable customer data from a corporate file server",
             DataHeistObjectives, DataHeistNodes, DataHeistFiles, 5)
  }

  // ----- System Takeover -----

  const SystemTakeoverObjectives := [
    Objective("Discover network layout with scan", CommandKind, "scan", false),
    Objective("Connect to the control server at 172.16.1.100", ConnectKind, "172.16.1.100", false),
    Objective("Locate system credentials file", DataKind, "credentials.enc", false),
    Objective("Crack the encrypted credentials file", CommandKind, "crack", false),
    Objective("Exploit vulnerability in SCADA controller", CommandKind, "exploit", false),
    Objective("Connect to primary control unit at 172.16.1.200", ConnectKind, "172.16.1.200", false),
    Objective("Upload control override software", CommandKind, "upload", false),
    Objective("Execute system takeover sequence", CommandKind, "execute", false)
  ]

  const SystemTakeoverNodes := [
    Net.Node("Access Terminal", "172.16.1.5",
      map["22" := Ssh("OpenSSH 8.1", map["operator" := "terminal123"])],
      1, "Terminal"),
    Net.Node("Network Control Server", "172.16.1.100",
      map["22" := Ssh("OpenSSH 7.5", map[]),
          "80" := Net.Service("HTTP", "IIS 10.0", true, map[]),
          "1433" := Net.Service("SQL Server", "MS SQL 2016", false, map[])],
      0, "Control Server"),
    Net.Node("SCADA Controller", "172.16.1.150",
      map["22" := Net.Service("SSH", "OpenSSH 6.8", true, map[]),
          "502" := Net.Service("Modbus", "Modbus TCP", true, map[])],
      0, "SCADA Controller"),
    Net.Node("Primary Control Unit", "172.16.1.200",
      map["22" := Ssh("OpenSSH 7.2", map[]),
          "5000" := Net.Service("Control Interface", "PCU 2.5", false, map[])],
      0, "Control Unit")
  ]

  const SystemTakeoverFiles := map[
    "/" := Fs.Directory("/",
      map["takeover.txt" := TakeoverText],
      ["sys", "data"], "rwx"),
    "/sys" := Fs.Directory("sys",
      map["control.cfg" := ControlCfgText],
      [], "r-x"),
    "/data" := Fs.Directory("data",
      map["credentials.enc" := CredentialsText,
          "facility_map.txt" := FacilityMapText],
      [], "r--")
  ]

  function SystemTakeoverScenario(): (sc: Scenario)
    ensures sc.name == "System Takeover" && |sc.objectives| == 8 && sc.initialSecurityLevel == 8
  {
    Scenario("System Takeover", "Gain control of a critical infrastructure facility",
             SystemTakeoverObjectives, SystemTakeoverNodes, SystemTakeoverFiles, 8)
  }

  // ----- well-formedness -----

  lemma NetworkBreachObjectivesOk()
    ensures OpenObjectives(NetworkBreachScenario().objectives) && KnownKinds(NetworkBreachScenario().objectives)
  {
  }

  lemma NetworkBreachNodesOk()
    ensures DistinctIPs(NetworkBreachScenario().networkNodes) && ConnectTargetsExist(NetworkBreachScenario())
  {
    var sc := NetworkBreachScenario();
    assert sc.networkNodes[1].ip == sc.objectives[1].target;
    assert sc.networkNodes[2].ip == sc.objectives[3].target;
  }

  lemma NetworkBreachRootComplete()
    ensures RootComplete(NetworkBreachScenario().fileSystems)
  {
    var sc := NetworkBreachScenario();
    assert sc.fileSystems["/"].subdirs == ["home", "etc"];
    assert "/" + "home" == "/home" && "/" + "etc" == "/etc";
  }

  lemma NetworkBreachDataTargets()
    ensures DataTargetsExist(NetworkBreachScenario())
  {
    var sc := NetworkBreachScenario();
    assert sc.objectives[2].target in sc.fileSystems["/etc"].files;
  }

  lemma NetworkBreachWellFormed()
    ensures WellFormed(NetworkBreachScenario())
  {
    NetworkBreachObjectivesOk();
    NetworkBreachNodesOk();
    NetworkBreachRootComplete();
    NetworkBreachDataTargets();
  }

  lemma DataHeistObjectivesOk()
    ensures OpenObjectives(DataHeistScenario().objectives) && KnownKinds(DataHeistScenario().objectives)
  {
  }

  lemma DataHeistNodesOk()
    ensures DistinctIPs(DataHeistScenario().networkNodes) && ConnectTargetsExist(DataHeistScenario())
  {
    var sc := DataHeistScenario();
    assert sc.networkNodes[1].ip == sc.objectives[1].target;
    assert sc.networkNodes[2].ip == sc.objectives[3].target;
  }

  lemma DataHeistRootComplete()
    ensures RootComplete(DataHeistScenario().fileSystems)
  {
    var sc := DataHeistScenario();
    assert sc.fileSystems["/"].subdirs == ["var", "mnt"];
    assert "/" + "var" == "/var" && "/" + "mnt" == "/mnt";
  }

  lemma DataHeistDataTargets()
    ensures DataTargetsExist(DataHeistScenario())
  {
    var sc := DataHeistScenario();
    assert sc.objectives[4].target in sc.fileSystems["/mnt"].files;
    assert sc.objectives[5].target in sc.fileSystems["/mnt"].files;
  }

  lemma DataHeistWellFormed()
    ensures WellFormed(DataHeistScenario())
  {
    DataHeistObjectivesOk();
    DataHeistNodesOk();
    DataHeistRootComplete();
    DataHeistDataTargets();
  }

  lemma SystemTakeoverObjectivesOk()
    ensures OpenObjectives(SystemTakeoverScenario().objectives) && KnownKinds(SystemTakeoverScenario().objectives)
  {
  }

  lemma SystemTakeoverNodesOk()
    ensures DistinctIPs(SystemTakeoverScenario().networkNodes) && ConnectTargetsExist(SystemTakeoverScenario())
  {
    var sc := SystemTakeoverScenario();
    assert sc.networkNodes[1].ip == sc.objectives[1].target;
    assert sc.networkNodes[3].ip == sc.objectives[5].target;
  }

  lemma SystemTakeoverRootComplete()
    ensures RootComplete(SystemTakeoverScenario().fileSystems)
  {
    var sc := SystemTakeoverScenario();
    assert sc.fileSystems["/"].subdirs == ["sys", "data"];
    assert "/" + "sys" == "/sys" && "/" + "data" == "/data";
  }

  lemma SystemTakeoverDataTargets()
    ensures DataTargetsExist(SystemTakeoverScenario())
  {
    var sc := SystemTakeoverScenario();
    assert sc.objectives[2].target in sc.fileSystems["/data"].files;
  }

  lemma SystemTakeoverWellFormed()
    ensures WellFormed(SystemTakeoverScenario())
  {
    SystemTakeoverObjectivesOk();
    SystemTakeoverNodesOk();
    SystemTakeoverRootComplete();
    SystemTakeoverDataTargets();
  }

  // ----- the data objectives -----

  lemma NetworkBreachDataOutOfReach()
    ensures DataOutOfReach(NetworkBreachScenario())
  {
    assert NetworkBreachFiles["/"].files.Keys == {"welcome.txt"};
    assert Paths.NoSlash("network.conf");
  }

  lemma DataHeistDataOutOfReach()
    ensures DataOutOfReach(DataHeistScenario())
  {
    assert DataHeistFiles["/"].files.Keys == {"mission.txt"};
    assert Paths.NoSlash("security_policy.pdf") && Paths.NoSlash("customers.db");
  }

  lemma SystemTakeoverDataOutOfReach()
    ensures DataOutOfReach(SystemTakeoverScenario())
  {
    assert SystemTakeoverFiles["/"].files.Keys == {"takeover.txt"};
    assert Paths.NoSlash("credentials.enc");
  }
}
