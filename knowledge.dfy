/**
  The static knowledge base `KNOWLEDGE_BASE` (app.py:25-41) and its lookup
  with a general fallback record (app.py:78-82).
 */
module Knowledge {
  import opened Classifier

  /** One entry: the dictionary's `title`, `content` and `actionable_intelligence`. */
  datatype KnowledgeRecord = KnowledgeRecord(title: string, content: string, actionableIntelligence: string)

  const HighLatencyRecord := KnowledgeRecord(
    "High Network Latency Troubleshooting Guide",
    "High latency can be caused by network congestion, firewall misconfigurations, or a slow server response. Correlate with network traffic logs (e.g., via `ping` or `traceroute`) and server performance metrics. The root cause is often identified by analyzing packet loss and jitter.",
    "Action: Investigate firewall rules for any recent changes and check server CPU/memory usage during peak latency.")

  const PacketLossRecord := KnowledgeRecord(
    "Network Packet Loss Analysis",
    "Packet loss indicates dropped packets during transmission. Common causes include faulty cabling, overloaded network devices (routers, switches), or insufficient bandwidth. Check device health, CPU/memory usage, and review interface counters for discard rates.",
    "Action: Ping network hops to isolate the area of packet loss and check device health metrics for signs of an overload.")

  const ServiceUnreachableRecord := KnowledgeRecord(
    "Service Unreachable Troubleshooting",
    "A 'service unreachable' error suggests a problem with DNS resolution, an incorrect IP address, or a service not running on the destination server. Start by verifying DNS and checking the service status (`systemctl status [service]`) on the target machine.",
    "Action: Perform a DNS lookup and verify the service is running. If both are correct, check routing tables for misconfigurations.")

  /** The default handed to `.get` when the tag has no entry. */
  const GeneralRecord := KnowledgeRecord(
    "General Network Troubleshooting",
    "No specific match found in the knowledge base. The analysis will proceed with general best practices.",
    "Action: Start with basic checks like connectivity (`ping`), device status, and recent configuration changes.")

  const KnowledgeBase: map<string, KnowledgeRecord> := map[
    "high latency" := HighLatencyRecord,
    "packet loss" := PacketLossRecord,
    "service unreachable" := ServiceUnreachableRecord
  ]

  /**
    `KNOWLEDGE_BASE.get(incident_type, default)`.  The general title appears
    on no table entry, so it marks exactly the lookups that fell back.
   */
  function Retrieve(incidentType: string): (r: KnowledgeRecord)
    ensures r.title == GeneralRecord.title <==> incidentType !in KnowledgeBase
  {
    if incidentType in KnowledgeBase then KnowledgeBase[incidentType] else GeneralRecord
  }

  /** The table is keyed by exactly the labels of the three specific tags. */
  lemma KeysAreSpecificTags(t: IncidentType)
    ensures Label(t) in KnowledgeBase <==> t != Unknown
    ensures KnowledgeBase.Keys == {Label(HighLatency), Label(PacketLoss), Label(ServiceUnreachable)}
  {
  }

  /**
    Lookup is total over the classifier's tags: a specific tag yields its own
    table entry and `Unknown` yields the general record.
   */
  lemma RetrieveByTag(t: IncidentType)
    ensures t != Unknown ==> Retrieve(Label(t)) == KnowledgeBase[Label(t)]
    ensures t == Unknown ==> Retrieve(Label(t)) == GeneralRecord
    ensures Retrieve(Label(t)).title == "General Network Troubleshooting" <==> t == Unknown
  {
  }

  /** Different tags retrieve different knowledge: the four titles are pairwise distinct. */
  lemma RetrieveSeparatesTags(t: IncidentType, u: IncidentType)
    requires t != u
    ensures Retrieve(Label(t)).title != Retrieve(Label(u)).title
  {
  }
}
