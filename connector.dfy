/**
 * The log-auth-proxy's log-type constants and its classification of a log type
 * as coming from a collector or from an agent.
 */
module Connector {

  type LogType = string

  const BeatsLinuxAgent: LogType := "beats_linux_agent"
  const BeatsApacheModule: LogType := "beats_apache_module"
  const BeatsApache2Module: LogType := "beats_apache2_module"
  const BeatsAuditdModule: LogType := "beats_auditd_module"
  const BeatsElasticsearchModule: LogType := "beats_elasticsearch_module"
  const BeatsKafkaModule: LogType := "beats_kafka_module"
  const BeatsKibanaModule: LogType := "beats_kibana_module"
  const BeatsLogstashModule: LogType := "beats_logstash_module"
  const BeatsMongodbModule: LogType := "beats_mongodb_module"
  const BeatsMysqlModule: LogType := "beats_mysql_module"
  const BeatsNginxModule: LogType := "beats_nginx_module"
  const BeatsOsqueryModule: LogType := "beats_osquery_module"
  const BeatsPostgresqlModule: LogType := "beats_postgresql_module"
  const BeatsRedisModule: LogType := "beats_redis_module"
  const BeatsIisModule: LogType := "beats_iis_module"
  const MacosLogs: LogType := "macos_logs"
  const Vmware: LogType := "vmware"
  const CiscoAsa: LogType := "cisco_asa"
  const CiscoMeraki: LogType := "cisco_meraki"
  const CiscoFirepower: LogType := "cisco_firepower"
  const CiscoSwitch: LogType := "cisco_switch"
  const AntivirusKaspersky: LogType := "antivirus_kaspersky"
  const AntivirusEset: LogType := "antivirus_eset"
  const AntivirusSentinelOne: LogType := "antivirus_sentinel_one"
  const FirewallFortinet: LogType := "firewall_fortinet"
  const FirewallSophos: LogType := "firewall_sophos"
  const CloudAzure: LogType := "cloud_azure"
  const CloudGoogle: LogType := "cloud_google"
  const FirewallUbuntu: LogType := "firewall_ubuntu"
  const FirewallMikrotik: LogType := "firewall_mikrotik"
  const FirewallPaloalto: LogType := "firewall_paloalto"
  const FirewallSonicwall: LogType := "firewall_sonicwall"
  const AntivirusDeceptivebytes: LogType := "antivirus_deceptivebytes"
  const WebHookGithub: LogType := "web_hook_github"
  const AntivirusBitdefender: LogType := "antivirus_bitdefender"
  const BeatsWindowsAgent: LogType := "beats_windows_agent"
  const BeatsTraefikModule: LogType := "beats_traefik_module"
  const BeatsNatsModule: LogType := "beats_nats_module"
  const BeatsHaproxyModule: LogType := "beats_haproxy_module"
  const JsonInput: LogType := "json_input"
  const Syslog: LogType := "syslog"
  const Generic: LogType := "generic"
  const Netflow: LogType := "netflow"
  const Aix: LogType := "ibm_aix"
  const AS400: LogType := "as_400"
  const FirewallPfsense: LogType := "firewall_pfsense"
  const FirewallFortiweb: LogType := "firewall_fortiweb"
  const Suricata: LogType := "suricata"

  /** Every declared log type, in declaration order. */
  const LogTypes: seq<LogType> := [
    BeatsLinuxAgent, BeatsApacheModule, BeatsApache2Module, BeatsAuditdModule,
    BeatsElasticsearchModule, BeatsKafkaModule, BeatsKibanaModule, BeatsLogstashModule,
    BeatsMongodbModule, BeatsMysqlModule, BeatsNginxModule, BeatsOsqueryModule,
    BeatsPostgresqlModule, BeatsRedisModule, BeatsIisModule, MacosLogs, Vmware,
    CiscoAsa, CiscoMeraki, CiscoFirepower, CiscoSwitch, AntivirusKaspersky,
    AntivirusEset, AntivirusSentinelOne, FirewallFortinet, FirewallSophos, CloudAzure,
    CloudGoogle, FirewallUbuntu, FirewallMikrotik, FirewallPaloalto, FirewallSonicwall,
    AntivirusDeceptivebytes, WebHookGithub, AntivirusBitdefender, BeatsWindowsAgent,
    BeatsTraefikModule, BeatsNatsModule, BeatsHaproxyModule, JsonInput, Syslog,
    Generic, Netflow, Aix, AS400, FirewallPfsense, FirewallFortiweb, Suricata
  ]

  const Collector := "collector"
  const Agent := "agent"

  /**
   * The connector kind of a log type: total over all strings, always "collector"
   * or "agent", and "collector" for exactly the string "as_400".
   */
  function ValidateConnectorType(typ: string): (kind: string)
    ensures kind == Collector || kind == Agent
    ensures kind == Collector <==> typ == AS400
    ensures kind == Agent <==> typ != AS400
  {
    if typ == AS400 then Collector else Agent
  }

  /**
   * Of the declared log types, only `AS400` is a collector; the match is exact,
   * so a different spelling of it is an agent.
   */
  lemma OnlyAS400IsCollector()
    ensures AS400 in LogTypes && ValidateConnectorType(AS400) == Collector
    ensures forall t :: t in LogTypes && t != AS400 ==> ValidateConnectorType(t) == Agent
    ensures ValidateConnectorType(Syslog) == Agent && ValidateConnectorType(BeatsWindowsAgent) == Agent
    ensures ValidateConnectorType("AS_400") == Agent && ValidateConnectorType("as_400 ") == Agent
  {
    assert LogTypes[44] == AS400;
  }
}
