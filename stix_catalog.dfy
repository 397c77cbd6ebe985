/** The static catalogue of the STIX 2.1 builder configuration
    (stix-builder.config.js): the kill-chain phase names, the open
    vocabularies and the object definitions, grouped as the file groups them.
    Only the `key` of each field descriptor is kept. Each object literal is a
    `Dict` whose key list is written out in declaration order. */
module StixCatalog {
  import opened OrderedDict

  const StixVersion: string := "2.1"

  /** `STIX_ID_PATTERN.source`; its language is `StixId.MatchesIdPattern`. */
  const StixIdPatternSource: string :=
    "^[a-z][a-z0-9-]*--[0-9a-f]{8}-[0-9a-f]{4}-[0-9a-f]{4}-[0-9a-f]{4}-[0-9a-f]{12}$"

  /** `STIX_KILL_CHAIN_PHASES['unified-kill-chain']`. */
  const UnifiedKillChainPhases: seq<string> := [
    "reconnaissance", "resource-development", "delivery", "social-engineering", "exploitation",
    "persistence", "defense-evasion", "command-and-control", "pivoting", "discovery",
    "privilege-escalation", "execution", "credential-access", "lateral-movement", "collection",
    "exfiltration", "impact", "objectives"
  ]

  /** The names of `STIX_VOCABULARIES`, in declaration order. */
  const VocabularyKeys: seq<string> := [
    "attack-motivation-ov", "attack-resource-level-ov", "grouping-context-ov", "identity-class-ov",
    "implementation-language-ov", "indicator-type-ov", "infrastructure-type-ov", "malware-type-ov",
    "malware-capabilities-ov", "malware-result-ov", "opinion-enum", "pattern-type-ov",
    "processor-architecture-ov", "report-type-ov", "threat-actor-type-ov", "threat-actor-role-ov",
    "threat-actor-sophistication-ov", "tool-type-ov", "region-ov", "sectors-ov",
    "relationship-type-ov", "hash-algorithm-ov", "tlp-ov"
  ]

  /** The vocabulary lists by name. */
  const VocabularyLists: map<string, seq<string>> := map[
    "attack-motivation-ov" := [
      "accidental", "coercion", "dominance", "ideology", "notoriety", "organizational-gain",
      "personal-gain", "personal-satisfaction", "revenge", "unpredictable"
    ],
    "attack-resource-level-ov" := [
      "individual", "club", "contest", "team", "organization", "government"
    ],
    "grouping-context-ov" := [
      "suspicious-activity", "malware-analysis", "unspecified"
    ],
    "identity-class-ov" := [
      "individual", "group", "system", "organization", "class", "unknown"
    ],
    "implementation-language-ov" := [
      "applescript", "bash", "c", "c++", "c#", "go", "java", "javascript", "lua", "objective-c",
      "perl", "php", "powershell", "python", "ruby", "rust", "scala", "swift", "typescript",
      "visual-basic"
    ],
    "indicator-type-ov" := [
      "anomalous-activity", "anonymization", "benign", "compromised", "malicious-activity",
      "attribution", "unknown"
    ],
    "infrastructure-type-ov" := [
      "amplification", "anonymization", "botnet", "command-and-control", "control-system",
      "exfiltration", "firewall", "hosting-malware", "hosting-target-lists", "phishing",
      "reconnaissance", "routers-switches", "staging", "workstation", "unknown"
    ],
    "malware-type-ov" := [
      "adware", "backdoor", "bot", "bootkit", "ddos", "downloader", "dropper", "exploit-kit",
      "keylogger", "ransomware", "remote-access-trojan", "resource-exploitation",
      "rogue-security-software", "rootkit", "screen-capture", "spyware", "trojan", "unknown",
      "virus", "webshell", "wiper", "worm"
    ],
    "malware-capabilities-ov" := [
      "accesses-remote-machines", "anti-debugging", "anti-disassembly", "anti-emulation",
      "anti-memory-forensics", "anti-sandbox", "anti-virus-evasion", "captures-input-peripherals",
      "captures-output-peripherals", "captures-system-state-data", "cleans-traces-of-infection",
      "commits-fraud", "communicates-with-c2", "compromises-data-availability",
      "compromises-data-integrity", "compromises-system-availability", "controls-local-machine",
      "degrades-security-software", "degrades-system-updates", "determines-c2-server",
      "emails-spam", "escalates-privileges", "evades-av", "exfiltrates-data", "fingerprints-host",
      "hides-artifacts", "hides-executing-code", "infects-files", "infects-remote-machines",
      "installs-other-components", "persists-after-system-reboot", "prevents-artifact-access",
      "prevents-artifact-deletion", "probes-network-environment", "self-modifies",
      "steals-authentication-credentials", "violates-system-operational-integrity"
    ],
    "malware-result-ov" := [
      "malicious", "suspicious", "benign", "unknown"
    ],
    "opinion-enum" := [
      "strongly-disagree", "disagree", "neutral", "agree", "strongly-agree"
    ],
    "pattern-type-ov" := [
      "stix", "pcre", "sigma", "snort", "suricata", "yara"
    ],
    "processor-architecture-ov" := [
      "alpha", "arm", "ia-64", "mips", "powerpc", "sparc", "x86", "x86-64"
    ],
    "report-type-ov" := [
      "attack-pattern", "campaign", "identity", "indicator", "intrusion-set", "malware",
      "observed-data", "threat-actor", "threat-report", "tool", "vulnerability"
    ],
    "threat-actor-type-ov" := [
      "activist", "competitor", "crime-syndicate", "criminal", "hacker", "insider-accidental",
      "insider-disgruntled", "nation-state", "sensationalist", "spy", "terrorist", "unknown"
    ],
    "threat-actor-role-ov" := [
      "agent", "director", "independent", "infrastructure-architect", "infrastructure-operator",
      "malware-author", "sponsor"
    ],
    "threat-actor-sophistication-ov" := [
      "none", "minimal", "intermediate", "advanced", "expert", "innovator", "strategic"
    ],
    "tool-type-ov" := [
      "denial-of-service", "exploitation", "information-gathering", "network-capture",
      "credential-exploitation", "remote-access", "vulnerability-scanning", "unknown"
    ],
    "region-ov" := [
      "africa", "eastern-africa", "middle-africa", "northern-africa", "southern-africa",
      "western-africa", "americas", "caribbean", "central-america", "latin-america-caribbean",
      "northern-america", "south-america", "asia", "central-asia", "eastern-asia", "southern-asia",
      "south-eastern-asia", "western-asia", "europe", "eastern-europe", "northern-europe",
      "southern-europe", "western-europe", "oceania", "antarctica", "australia-new-zealand",
      "melanesia", "micronesia", "polynesia"
    ],
    "sectors-ov" := [
      "agriculture", "aerospace", "automotive", "chemical", "commercial", "communications",
      "construction", "defense", "education", "energy", "entertainment", "financial-services",
      "government", "government-emergency-services", "government-local", "government-national",
      "government-public-services", "government-regional", "healthcare", "hospitality-leisure",
      "infrastructure", "insurance", "manufacturing", "mining", "non-profit", "pharmaceuticals",
      "retail", "technology", "telecommunications", "transportation", "utilities", "water"
    ],
    "relationship-type-ov" := [
      "uses", "targets", "mitigates", "indicates", "attributed-to", "communicates-with",
      "consists-of", "controls", "delivers", "detects", "drops", "exploits", "hosts",
      "impersonates", "located-at", "owns", "related-to", "remediates", "resolves-to",
      "revoked-by", "subtechnique-of", "variant-of"
    ],
    "hash-algorithm-ov" := [
      "MD5", "SHA-1", "SHA-256", "SHA-512", "SHA3-256", "SHA3-512", "SSDEEP", "TLSH"
    ],
    "tlp-ov" := [
      "white", "green", "amber", "red", "amber+strict"
    ]
  ]

  /** An object definition: display label, category and the keys of its
      required and optional fields. */
  datatype ObjectDef = ObjectDef(labelText: string, category: string, required: seq<string>, optional: seq<string>)

  const SdoKeys: seq<string> := [
    "attack-pattern", "campaign", "course-of-action", "grouping", "identity", "indicator",
    "infrastructure", "intrusion-set", "location", "malware", "malware-analysis", "note",
    "observed-data", "opinion", "report", "threat-actor", "tool", "vulnerability"
  ]

  /** `STIX_SDO_OBJECTS`. */
  const SdoObjects: Dict<ObjectDef> := Dict(SdoKeys, map[
    "attack-pattern" := ObjectDef("Attack Pattern", "sdo",
      ["name"],
      ["description", "aliases", "kill_chain_phases"]),
    "campaign" := ObjectDef("Campaign", "sdo",
      ["name"],
      ["description", "aliases", "first_seen", "last_seen", "objective"]),
    "course-of-action" := ObjectDef("Course of Action", "sdo",
      ["name"],
      ["description"]),
    "grouping" := ObjectDef("Grouping", "sdo",
      ["name", "context", "object_refs"],
      ["description"]),
    "identity" := ObjectDef("Identity", "sdo",
      ["name", "identity_class"],
      ["description", "roles", "sectors", "contact_information"]),
    "indicator" := ObjectDef("Indicator", "sdo",
      ["name", "pattern", "pattern_type", "valid_from"],
      ["description", "pattern_version", "valid_until", "kill_chain_phases"]),
    "infrastructure" := ObjectDef("Infrastructure", "sdo",
      ["name"],
      ["description", "aliases", "infrastructure_types", "first_seen", "last_seen", "kill_chain_phases"]),
    "intrusion-set" := ObjectDef("Intrusion Set", "sdo",
      ["name"],
      ["description", "aliases", "first_seen", "last_seen", "goals", "resource_level", "primary_motivation", "secondary_motivations"]),
    "location" := ObjectDef("Location", "sdo",
      ["name"],
      ["description", "latitude", "longitude", "precision", "region", "country", "administrative_area", "city", "postal_code", "street_address"]),
    "malware" := ObjectDef("Malware", "sdo",
      ["name", "is_family"],
      ["description", "malware_types", "aliases", "first_seen", "last_seen", "operating_system_refs", "architecture_execution_envs", "implementation_languages", "capabilities", "sample_refs", "kill_chain_phases"]),
    "malware-analysis" := ObjectDef("Malware Analysis", "sdo",
      ["product", "analysis_engine_version", "analysis_definition_version", "submitted", "analysis_started", "analysis_ended", "result"],
      ["description", "analysis_sco_refs", "analysis_software_refs", "analysis_engine_refs", "host_vm_refs", "operating_system_refs", "installed_software_refs", "configuration_version", "modules"]),
    "note" := ObjectDef("Note", "sdo",
      ["content"],
      ["abstract", "authors", "object_refs"]),
    "observed-data" := ObjectDef("Observed Data", "sdo",
      ["first_observed", "last_observed", "number_observed", "object_refs"],
      ["description"]),
    "opinion" := ObjectDef("Opinion", "sdo",
      ["opinion", "object_refs"],
      ["explanation", "authors"]),
    "report" := ObjectDef("Report", "sdo",
      ["name", "published", "object_refs"],
      ["description", "report_types"]),
    "threat-actor" := ObjectDef("Threat Actor", "sdo",
      ["name"],
      ["description", "aliases", "roles", "goals", "sophistication", "resource_level", "primary_motivation", "secondary_motivations", "personal_motivations", "first_seen", "last_seen", "threat_actor_types"]),
    "tool" := ObjectDef("Tool", "sdo",
      ["name"],
      ["description", "tool_types", "aliases", "kill_chain_phases", "tool_version"]),
    "vulnerability" := ObjectDef("Vulnerability", "sdo",
      ["name"],
      ["description"])
  ])

  const SroKeys: seq<string> := [
    "relationship", "sighting"
  ]

  /** `STIX_SRO_OBJECTS`. */
  const SroObjects: Dict<ObjectDef> := Dict(SroKeys, map[
    "relationship" := ObjectDef("Relationship", "sro",
      ["relationship_type", "source_ref", "target_ref"],
      ["description", "start_time", "stop_time"]),
    "sighting" := ObjectDef("Sighting", "sro",
      ["sighting_of_ref"],
      ["description", "observed_data_refs", "where_sighted_refs", "summary", "count", "first_seen", "last_seen"])
  ])

  const ScoKeys: seq<string> := [
    "artifact", "autonomous-system", "directory", "domain-name", "email-addr", "email-message",
    "file", "ipv4-addr", "ipv6-addr", "mac-addr", "mutex", "network-traffic", "process",
    "software", "url", "user-account", "windows-registry-key", "x509-certificate"
  ]

  /** `STIX_SCO_OBJECTS`. */
  const ScoObjects: Dict<ObjectDef> := Dict(ScoKeys, map[
    "artifact" := ObjectDef("Artifact", "sco",
      [],
      ["mime_type", "payload_bin", "url", "hashes", "encryption_algorithm", "decryption_key"]),
    "autonomous-system" := ObjectDef("Autonomous System", "sco",
      ["number"],
      ["name", "rir"]),
    "directory" := ObjectDef("Directory", "sco",
      ["path"],
      ["path_enc", "created", "modified", "accessed", "contains_refs"]),
    "domain-name" := ObjectDef("Domain Name", "sco",
      ["value"],
      ["resolves_to_refs"]),
    "email-addr" := ObjectDef("Email Address", "sco",
      ["value"],
      ["display_name", "belongs_to_ref"]),
    "email-message" := ObjectDef("Email Message", "sco",
      ["is_multipart"],
      ["date", "content_type", "from_ref", "sender_ref", "to_refs", "cc_refs", "bcc_refs", "subject", "received_lines", "additional_header_fields", "body", "body_multipart", "raw_email_ref"]),
    "file" := ObjectDef("File", "sco",
      [],
      ["extensions", "hashes", "size", "name", "name_enc", "magic_number_hex", "mime_type", "created", "modified", "accessed", "parent_directory_ref", "contains_refs", "content_ref"]),
    "ipv4-addr" := ObjectDef("IPv4 Address", "sco",
      ["value"],
      ["resolves_to_refs", "belongs_to_refs"]),
    "ipv6-addr" := ObjectDef("IPv6 Address", "sco",
      ["value"],
      ["resolves_to_refs", "belongs_to_refs"]),
    "mac-addr" := ObjectDef("MAC Address", "sco",
      ["value"],
      []),
    "mutex" := ObjectDef("Mutex", "sco",
      ["name"],
      []),
    "network-traffic" := ObjectDef("Network Traffic", "sco",
      ["protocols"],
      ["src_ref", "dst_ref", "src_port", "dst_port", "start", "end", "is_active", "src_byte_count", "dst_byte_count", "src_packets", "dst_packets", "encapsulates_refs", "encapsulated_by_ref", "extensions"]),
    "process" := ObjectDef("Process", "sco",
      [],
      ["is_hidden", "pid", "created_time", "cwd", "command_line", "environment_variables", "opened_connection_refs", "creator_user_ref", "image_ref", "parent_ref", "child_refs"]),
    "software" := ObjectDef("Software", "sco",
      ["name"],
      ["cpe", "swid", "vendor", "version", "languages"]),
    "url" := ObjectDef("URL", "sco",
      ["value"],
      []),
    "user-account" := ObjectDef("User Account", "sco",
      ["user_id"],
      ["account_login", "account_type", "display_name", "is_service_account", "is_privileged", "can_escalate_privs", "is_disabled", "account_created", "account_expires", "password_last_changed", "account_first_login", "account_last_login"]),
    "windows-registry-key" := ObjectDef("Windows Registry Key", "sco",
      ["key"],
      ["values", "modified", "creator_user_ref", "number_of_subkeys"]),
    "x509-certificate" := ObjectDef("X.509 Certificate", "sco",
      ["is_self_signed", "subject", "issuer", "validity_not_before", "validity_not_after", "serial_number"],
      ["signature_algorithm", "version", "hashes"])
  ])

  const MarkingKeys: seq<string> := [
    "marking-definition"
  ]

  /** `STIX_MARKING_DEFINITIONS`. */
  const MarkingDefinitions: Dict<ObjectDef> := Dict(MarkingKeys, map[
    "marking-definition" := ObjectDef("Marking Definition", "marking",
      ["definition_type", "definition"],
      [])
  ])

  /** `STIX_EXTENSION_DEFINITION`. */
  const ExtensionDefinition: ObjectDef :=
    ObjectDef("Extension Definition", "extension",
      ["name", "description", "schema", "version", "extension_types"],
      ["created_by_ref"])

  /** `STIX_VOCABULARIES`. */
  const StixVocabularies: Dict<seq<string>> := Dict(VocabularyKeys, VocabularyLists)

  /** The last source of the `STIX_OBJECT_DEFS` merge, `{'extension-definition': …}`. */
  const ExtensionKey: string := "extension-definition"
  const ExtensionObjects: Dict<ObjectDef> := Dict([ExtensionKey], map[ExtensionKey := ExtensionDefinition])
}
