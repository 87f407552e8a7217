/** The statistics snapshot that the system monitor collects: its record form, the
    nested dictionary the service actually stores and publishes, and the decoding of
    such a dictionary back into a record. */
module Stats {

  datatype Option<T> = None | Some(value: T)

  /** One entry of a stats dictionary. The Python service builds nested dicts whose
      leaves are an ISO timestamp string, floats and integer counts. */
  datatype Value =
    | Text(text: string)
    | Float(x: real)
    | Int(n: int)
    | Object(fields: map<string, Value>)

  type Dict = map<string, Value>

  /** Memory or disk usage as the collector reports it: psutil's percentage as it
      is, and the byte counts after the service has scaled them to gigabytes and
      rounded them to two decimals. The model takes these numbers as given. */
  datatype Usage = Usage(percent: real, usedGb: real, totalGb: real)

  datatype Network = Network(bytesSentMb: real, bytesRecvMb: real)

  /** The psutil-derived part of a snapshot, treated as opaque readings. */
  datatype Readings = Readings(cpuPercent: real, memory: Usage, disk: Usage, network: Network)

  /** The Home Assistant counts of a snapshot: each is the size of a collection. */
  datatype HaStats = HaStats(configEntries: nat, states: nat, services: nat)

  datatype Snapshot = Snapshot(timestamp: string, readings: Readings, homeassistant: HaStats)

  // The top-level keys of a stats dictionary.
  const TopKeys: set<string> :=
    {"timestamp", "cpu_percent", "memory", "disk", "network", "homeassistant"}

  function UsageDict(u: Usage): Dict {
    map["percent" := Float(u.percent), "used_gb" := Float(u.usedGb), "total_gb" := Float(u.totalGb)]
  }

  function NetworkDict(n: Network): Dict {
    map["bytes_sent_mb" := Float(n.bytesSentMb), "bytes_recv_mb" := Float(n.bytesRecvMb)]
  }

  function HaDict(h: HaStats): Dict {
    map["config_entries" := Int(h.configEntries), "states" := Int(h.states), "services" := Int(h.services)]
  }

  /** The dictionary that the collector returns for a snapshot. */
  function ToDict(s: Snapshot): (d: Dict)
    ensures d.Keys == TopKeys
  {
    map[
      "timestamp" := Text(s.timestamp),
      "cpu_percent" := Float(s.readings.cpuPercent),
      "memory" := Object(UsageDict(s.readings.memory)),
      "disk" := Object(UsageDict(s.readings.disk)),
      "network" := Object(NetworkDict(s.readings.network)),
      "homeassistant" := Object(HaDict(s.homeassistant))
    ]
  }

  function UsageFrom(v: Value): Option<Usage> {
    if v.Object? && v.fields.Keys == {"percent", "used_gb", "total_gb"}
       && v.fields["percent"].Float? && v.fields["used_gb"].Float? && v.fields["total_gb"].Float?
    then Some(Usage(v.fields["percent"].x, v.fields["used_gb"].x, v.fields["total_gb"].x))
    else None
  }

  function NetworkFrom(v: Value): Option<Network> {
    if v.Object? && v.fields.Keys == {"bytes_sent_mb", "bytes_recv_mb"}
       && v.fields["bytes_sent_mb"].Float? && v.fields["bytes_recv_mb"].Float?
    then Some(Network(v.fields["bytes_sent_mb"].x, v.fields["bytes_recv_mb"].x))
    else None
  }

  function HaFrom(v: Value): Option<HaStats> {
    if v.Object? && v.fields.Keys == {"config_entries", "states", "services"}
       && v.fields["config_entries"].Int? && v.fields["states"].Int? && v.fields["services"].Int?
       && v.fields["config_entries"].n >= 0 && v.fields["states"].n >= 0 && v.fields["services"].n >= 0
    then Some(HaStats(v.fields["config_entries"].n, v.fields["states"].n, v.fields["services"].n))
    else None
  }

  /** Reads a stats dictionary back as a snapshot; None for anything that is not
      exactly the collector's shape, in particular for the empty dictionary the
      service holds before its first successful collection. */
  function FromDict(d: Dict): Option<Snapshot> {
    if d.Keys == TopKeys && d["timestamp"].Text? && d["cpu_percent"].Float?
       && UsageFrom(d["memory"]).Some? && UsageFrom(d["disk"]).Some?
       && NetworkFrom(d["network"]).Some? && HaFrom(d["homeassistant"]).Some?
    then
      Some(Snapshot(
        d["timestamp"].text,
        Readings(d["cpu_percent"].x, UsageFrom(d["memory"]).value, UsageFrom(d["disk"]).value,
                 NetworkFrom(d["network"]).value),
        HaFrom(d["homeassistant"]).value))
    else None
  }

  lemma UsageRoundTrip(u: Usage, v: Value)
    ensures UsageFrom(v) == Some(u) <==> v == Object(UsageDict(u))
  {
    if UsageFrom(v) == Some(u) {
      assert v.fields == UsageDict(u);
    }
  }

  lemma NetworkRoundTrip(n: Network, v: Value)
    ensures NetworkFrom(v) == Some(n) <==> v == Object(NetworkDict(n))
  {
    if NetworkFrom(v) == Some(n) {
      assert v.fields == NetworkDict(n);
    }
  }

  lemma HaRoundTrip(h: HaStats, v: Value)
    ensures HaFrom(v) == Some(h) <==> v == Object(HaDict(h))
  {
    if HaFrom(v) == Some(h) {
      assert v.fields == HaDict(h);
    }
  }

  /** The dictionary encoding is lossless and FromDict recognises exactly the
      dictionaries the collector can produce. */
  lemma DictRoundTrip(s: Snapshot, d: Dict)
    ensures FromDict(d) == Some(s) <==> d == ToDict(s)
  {
    UsageRoundTrip(s.readings.memory, if "memory" in d then d["memory"] else Int(0));
    UsageRoundTrip(s.readings.disk, if "disk" in d then d["disk"] else Int(0));
    NetworkRoundTrip(s.readings.network, if "network" in d then d["network"] else Int(0));
    HaRoundTrip(s.homeassistant, if "homeassistant" in d then d["homeassistant"] else Int(0));
    if FromDict(d) == Some(s) {
      assert d == ToDict(s);
    }
    if d == ToDict(s) {
      assert UsageFrom(d["memory"]) == Some(s.readings.memory);
    }
  }

  /** No snapshot encodes as the empty dictionary. */
  lemma NoSnapshotIsEmpty(s: Snapshot)
    ensures ToDict(s) != map[]
  {
    assert "timestamp" in ToDict(s);
  }

  /** The empty dictionary the service holds before its first successful collection
      decodes to no snapshot, so it can never be mistaken for collected data. */
  lemma EmptyIsNoSnapshot()
    ensures FromDict(map[]) == None
  {
  }

  /** The `homeassistant` entry of a stats dictionary holds only non-negative
      integer counts. */
  predicate CountsNonNegative(d: Dict) {
    && "homeassistant" in d
    && d["homeassistant"].Object?
    && forall k :: k in d["homeassistant"].fields ==>
         d["homeassistant"].fields[k].Int? && d["homeassistant"].fields[k].n >= 0
  }

  /** Every dictionary that decodes to a snapshot has non-negative counts. */
  lemma DecodableCountsNonNegative(d: Dict)
    requires FromDict(d).Some?
    ensures CountsNonNegative(d)
  {
    DictRoundTrip(FromDict(d).value, d);
  }

  /** The shape and count part of the collector: the psutil readings and the clock
      string are passed through, and each Home Assistant figure is the size of the
      corresponding collection (config entries, state objects, and the service
      registry's domain dictionary). */
  function Collect(timestamp: string, readings: Readings,
                   entries: seq<string>, states: seq<string>, services: map<string, set<string>>)
    : (d: Dict)
    ensures FromDict(d) == Some(Snapshot(timestamp, readings, HaStats(|entries|, |states|, |services|)))
  {
    var s := Snapshot(timestamp, readings, HaStats(|entries|, |states|, |services|));
    DictRoundTrip(s, ToDict(s));
    ToDict(s)
  }
}
