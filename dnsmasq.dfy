/** The state that dnsmasq-ctrl keeps about the dnsmasq process it supervises (src/dnsmasq.rs):
 *  the cache hit counters, the query outcome stored in the query table, the lifecycle of the
 *  process, and the update the supervision loop makes for every line dnsmasq logs.
 *
 *  The query table itself lives in SQLite; here the loop reports the call it would make on
 *  that table (`QueryTableCall`) instead of making it.
 */
module Dnsmasq {
  import opened Wrappers
  import opened Ints
  import opened LineParser

  // ---------------------------------------------------------------------------------------
  // Cache hit counters
  // ---------------------------------------------------------------------------------------

  /** The two counters of `CacheHitsRate`. */
  datatype Counts = Counts(totalReqs: nat, hits: nat)

  /** The counters after one more request, a hit when `hit` holds. */
  function Record(c: Counts, hit: bool): (r: Counts)
    ensures r.totalReqs == c.totalReqs + 1
    ensures r.hits == c.hits + (if hit then 1 else 0)
  {
    if hit then Counts(c.totalReqs + 1, c.hits + 1) else Counts(c.totalReqs + 1, c.hits)
  }

  /** The counters after recording `events` in order, starting from `start`. */
  function Replay(start: Counts, events: seq<bool>): Counts {
    if events == [] then start else Record(Replay(start, events[..|events| - 1]), events[|events| - 1])
  }

  /** How many of `events` are hits. */
  function HitCount(events: seq<bool>): (n: nat)
    ensures n <= |events|
  {
    if events == [] then 0 else HitCount(events[..|events| - 1]) + (if events[|events| - 1] then 1 else 0)
  }

  /** From the default counters, any sequence of `hit` and `miss` calls leaves `hits` equal to
   *  the number of hits and `totalReqs` equal to the number of calls. */
  lemma {:induction false} ReplayCounts(events: seq<bool>)
    ensures Replay(Counts(0, 0), events) == Counts(|events|, HitCount(events))
  {
    if events != [] {
      ReplayCounts(events[..|events| - 1]);
    }
  }

  /** Recording requests never lets the hits overtake the total. */
  lemma {:induction false} ReplayKeepsBound(start: Counts, events: seq<bool>)
    requires start.hits <= start.totalReqs
    ensures Replay(start, events).hits <= Replay(start, events).totalReqs
  {
    if events != [] {
      ReplayKeepsBound(start, events[..|events| - 1]);
    }
  }

  /** `CacheHitsRate`. */
  class CacheHitsRate {
    var totalReqs: nat
    var hits: nat

    function Value(): Counts
      reads this
    {
      Counts(totalReqs, hits)
    }

    /** The counters never count more hits than requests. */
    predicate Valid()
      reads this
    {
      hits <= totalReqs
    }

    /** `CacheHitsRate::default()`. */
    constructor ()
      ensures Value() == Counts(0, 0) && Valid()
    {
      totalReqs := 0;
      hits := 0;
    }

    /** `hit`: one more request, and it was a hit. */
    method Hit()
      requires Valid()
      modifies this
      ensures Value() == Record(old(Value()), true) && Valid()
    {
      hits := hits + 1;
      totalReqs := totalReqs + 1;
    }

    /** `miss`: one more request, and it was not a hit. */
    method Miss()
      requires Valid()
      modifies this
      ensures Value() == Record(old(Value()), false) && Valid()
    {
      totalReqs := totalReqs + 1;
    }
  }

  // ---------------------------------------------------------------------------------------
  // Query outcomes and their integer encoding
  // ---------------------------------------------------------------------------------------

  /** `QueryState`, the outcome stored with each query. */
  datatype QueryState = Running | Hit | Miss | Nx

  /** The error `column_result` gives for an integer that is no outcome. */
  datatype FromSqlError = InvalidType

  /** `to_sql`: the outcome's discriminant as a `u8`. */
  function ToSql(q: QueryState): (n: u8)
    ensures n < 4
  {
    match q
    case Running => 0
    case Hit => 1
    case Miss => 2
    case Nx => 3
  }

  /** `column_result` on an integer column value. */
  function FromSql(v: i64): (r: Result<QueryState, FromSqlError>)
    ensures r.Ok? <==> 0 <= v < 4
    ensures r.Ok? ==> ToSql(r.value) as int == v as int
    ensures r.Err? ==> r.error == InvalidType
  {
    match v
    case 0 => Ok(Running)
    case 1 => Ok(Hit)
    case 2 => Ok(Miss)
    case 3 => Ok(Nx)
    case _ => Err(InvalidType)
  }

  /** Decoding inverts encoding, and no two outcomes share a code. */
  lemma SqlRoundTrip(q: QueryState, q': QueryState)
    ensures FromSql(ToSql(q) as i64) == Ok(q)
    ensures ToSql(q) == ToSql(q') ==> q == q'
  {
    match q
    case Running =>
    case Hit =>
    case Miss =>
    case Nx =>
  }

  /** The outcome the supervision loop records for a reply: NX when there is no address,
   *  whatever `cached` says; otherwise HIT for a cached reply and MISS for a forwarded one. */
  function ReplyState(cached: bool, result: Option<IpAddr>): (q: QueryState)
    ensures q != Running
    ensures q == Nx <==> result.None?
    ensures q == Hit <==> cached && result.Some?
    ensures q == Miss <==> !cached && result.Some?
  {
    if result.None? then Nx else if cached then Hit else Miss
  }

  // ---------------------------------------------------------------------------------------
  // The supervised process
  // ---------------------------------------------------------------------------------------

  /** `DnsmasqStateEnum`. */
  datatype StateEnum = Uninited | Active | Error(reason: string)

  /** The fields of `DnsmasqState` apart from its SQLite connection. */
  datatype StateValue = StateValue(
    stateEnum: StateEnum,
    version: Option<string>,
    cacheSize: Option<u32>,
    nameServers: seq<string>,
    addresses: map<IpAddr, seq<string>>)

  /** What `DnsmasqState::empty` gives. */
  const EmptyState: StateValue := StateValue(Uninited, None, None, [], map[])

  /** The call the supervision loop makes on the query table for a line. */
  datatype QueryTableCall =
    | StartQuery(id: u64, source: string, domain: string, queryType: string)
    | FinishQuery(id: u64, state: QueryState)

  /** The fields after the supervision loop handles one parsed line: a started banner fills
   *  in version and cache size and marks the process active, a nameserver banner appends
   *  the server, and every other line (hosts file, query, reply, unrecognised) leaves the
   *  fields as they were. */
  function Step(v: StateValue, line: Option<ParsedLine>): (r: StateValue)
    ensures r.addresses == v.addresses
    ensures line.Some? && line.value.Start? ==>
      r == v.(stateEnum := Active, version := Some(line.value.version), cacheSize := Some(line.value.cacheSize))
    ensures line.Some? && line.value.NameServer? ==>
      r == v.(nameServers := v.nameServers + [line.value.server])
    ensures !(line.Some? && (line.value.Start? || line.value.NameServer?)) ==> r == v
  {
    match line
    case Some(Start(version, cacheSize)) =>
      v.(cacheSize := Some(cacheSize), version := Some(version), stateEnum := Active)
    case Some(NameServer(server)) => v.(nameServers := v.nameServers + [server])
    case _ => v
  }

  /** The query-table call the supervision loop makes for one parsed line, if any. */
  function TableCall(line: Option<ParsedLine>): (c: Option<QueryTableCall>)
    ensures c.Some? <==> line.Some? && (line.value.Query? || line.value.Reply?)
    ensures c.Some? && c.value.FinishQuery? ==> c.value.state != Running
  {
    match line
    case Some(Query(id, source, query, domain, _)) => Some(StartQuery(id, source, domain, query))
    case Some(Reply(id, cached, _, result)) => Some(FinishQuery(id, ReplyState(cached, result)))
    case _ => None
  }

  /** The fields after handling `lines` in order. */
  function Fold(v: StateValue, lines: seq<Option<ParsedLine>>): StateValue {
    if lines == [] then v else Step(Fold(v, lines[..|lines| - 1]), lines[|lines| - 1])
  }

  /** The calls made while handling `lines`, in order. */
  function Calls(lines: seq<Option<ParsedLine>>): seq<QueryTableCall> {
    if lines == [] then []
    else
      var c := TableCall(lines[|lines| - 1]);
      Calls(lines[..|lines| - 1]) + (if c.Some? then [c.value] else [])
  }

  /** Each line of the log, parsed. */
  function ParseAll(parseIp: string -> Option<IpAddr>, lines: seq<string>): (r: seq<Option<ParsedLine>>)
    ensures |r| == |lines|
  {
    if lines == [] then [] else ParseAll(parseIp, lines[..|lines| - 1]) + [ParseLine(parseIp, lines[|lines| - 1])]
  }

  /** The `i`-th parsed line is the parse of the `i`-th line. */
  lemma {:induction false} ParseAllAt(parseIp: string -> Option<IpAddr>, lines: seq<string>, i: nat)
    requires i < |lines|
    ensures ParseAll(parseIp, lines)[i] == ParseLine(parseIp, lines[i])
  {
    if i < |lines| - 1 {
      ParseAllAt(parseIp, lines[..|lines| - 1], i);
    }
  }

  /** `DnsmasqState` without its SQLite connection. */
  class DnsmasqState {
    var stateEnum: StateEnum
    var version: Option<string>
    var cacheSize: Option<u32>
    var nameServers: seq<string>
    var addresses: map<IpAddr, seq<string>>

    function Value(): StateValue
      reads this
    {
      StateValue(stateEnum, version, cacheSize, nameServers, addresses)
    }

    /** `DnsmasqState::empty`. */
    constructor Empty()
      ensures Value() == EmptyState
    {
      addresses := map[];
      cacheSize := None;
      nameServers := [];
      version := None;
      stateEnum := Uninited;
    }

    /** The body of the supervision loop for one parsed line; it returns the call it makes on
     *  the query table. */
    method Apply(line: Option<ParsedLine>) returns (call: Option<QueryTableCall>)
      modifies this
      ensures Value() == Step(old(Value()), line)
      ensures call == TableCall(line)
    {
      call := None;
      match line {
        case Some(Start(version, cacheSize)) =>
          this.cacheSize := Some(cacheSize);
          this.version := Some(version);
          stateEnum := Active;
        case Some(NameServer(server)) =>
          nameServers := nameServers + [server];
        case Some(ReadHosts(_, _)) =>
        case Some(Query(id, source, query, domain, _)) =>
          call := Some(StartQuery(id, source, domain, query));
        case Some(Reply(id, cached, _, result)) =>
          var state := Running;
          if cached {
            state := Hit;
          } else {
            state := Miss;
          }
          if result.None? {
            state := Nx;
          }
          call := Some(FinishQuery(id, state));
        case None =>
      }
    }

    /** The supervision loop over the lines dnsmasq logs: each is parsed and applied. */
    method ProcessLines(parseIp: string -> Option<IpAddr>, lines: seq<string>) returns (calls: seq<QueryTableCall>)
      modifies this
      ensures Value() == Fold(old(Value()), ParseAll(parseIp, lines))
      ensures calls == Calls(ParseAll(parseIp, lines))
    {
      calls := [];
      var i := 0;
      while i < |lines|
        invariant 0 <= i <= |lines|
        invariant Value() == Fold(old(Value()), ParseAll(parseIp, lines[..i]))
        invariant calls == Calls(ParseAll(parseIp, lines[..i]))
      {
        var parsed := ParseLine(parseIp, lines[i]);
        var call := Apply(parsed);
        assert lines[..i + 1][..i] == lines[..i];
        if call.Some? {
          calls := calls + [call.value];
        }
        i := i + 1;
      }
      assert lines[..i] == lines;
    }
  }

  // ---------------------------------------------------------------------------------------
  // What the loop does over many lines
  // ---------------------------------------------------------------------------------------

  /** The servers the nameserver banners among `lines` announce, in order, repeats kept. */
  function ServersOf(lines: seq<Option<ParsedLine>>): seq<string> {
    if lines == [] then []
    else
      var l := lines[|lines| - 1];
      ServersOf(lines[..|lines| - 1]) + (if l.Some? && l.value.NameServer? then [l.value.server] else [])
  }

  /** `l` is a started banner. */
  predicate IsStart(l: Option<ParsedLine>) {
    l.Some? && l.value.Start?
  }

  /** The last started banner among `lines`, if any. */
  function LastStart(lines: seq<Option<ParsedLine>>): (r: Option<ParsedLine>)
    ensures r.Some? ==> r.value.Start? && Some(r.value) in lines
    ensures r.None? <==> forall i :: 0 <= i < |lines| ==> !IsStart(lines[i])
  {
    if lines == [] then None
    else
      var l := lines[|lines| - 1];
      if IsStart(l) then l else LastStart(lines[..|lines| - 1])
  }

  /** The banner `LastStart` returns stands at an index after which no started banner
   *  follows. */
  lemma {:induction false} LastStartIsLast(lines: seq<Option<ParsedLine>>) returns (i: nat)
    requires LastStart(lines).Some?
    ensures i < |lines| && lines[i] == LastStart(lines)
    ensures forall j :: i < j < |lines| ==> !IsStart(lines[j])
  {
    var init := lines[..|lines| - 1];
    if IsStart(lines[|lines| - 1]) {
      i := |lines| - 1;
    } else {
      i := LastStartIsLast(init);
      assert lines[i] == init[i];
      forall j | i < j < |lines| ensures !IsStart(lines[j]) {
        if j < |lines| - 1 {
          assert lines[j] == init[j];
        }
      }
    }
  }

  /** The loop appends the announced servers to the list in order and never touches the
   *  address table. */
  lemma {:induction false} FoldServers(v: StateValue, lines: seq<Option<ParsedLine>>)
    ensures Fold(v, lines).nameServers == v.nameServers + ServersOf(lines)
    ensures Fold(v, lines).addresses == v.addresses
  {
    if lines != [] {
      FoldServers(v, lines[..|lines| - 1]);
    }
  }

  /** Version, cache size and lifecycle come from the last started banner; without one they
   *  are as before. */
  lemma {:induction false} FoldLifecycle(v: StateValue, lines: seq<Option<ParsedLine>>)
    ensures LastStart(lines).None? ==>
      Fold(v, lines).stateEnum == v.stateEnum && Fold(v, lines).version == v.version
      && Fold(v, lines).cacheSize == v.cacheSize
    ensures LastStart(lines).Some? ==>
      Fold(v, lines).stateEnum == Active
      && Fold(v, lines).version == Some(LastStart(lines).value.version)
      && Fold(v, lines).cacheSize == Some(LastStart(lines).value.cacheSize)
  {
    if lines != [] {
      FoldLifecycle(v, lines[..|lines| - 1]);
    }
  }

  /** Version and cache size are known together, and only once the process is active. */
  predicate Consistent(v: StateValue) {
    (v.version.Some? <==> v.cacheSize.Some?) && (v.version.Some? ==> v.stateEnum.Active?)
  }

  /** The empty state is consistent and every sequence of lines keeps it so. */
  lemma {:induction false} FoldConsistent(v: StateValue, lines: seq<Option<ParsedLine>>)
    requires Consistent(v)
    ensures Consistent(Fold(v, lines))
  {
    if lines != [] {
      FoldConsistent(v, lines[..|lines| - 1]);
    }
  }

  /** From the empty state, the process is active exactly when a started banner was seen. */
  lemma FoldFromEmpty(lines: seq<Option<ParsedLine>>)
    ensures Consistent(Fold(EmptyState, lines))
    ensures Fold(EmptyState, lines).stateEnum.Active? <==> LastStart(lines).Some?
    ensures Fold(EmptyState, lines).nameServers == ServersOf(lines)
  {
    FoldConsistent(EmptyState, lines);
    FoldLifecycle(EmptyState, lines);
    FoldServers(EmptyState, lines);
  }

  /** There are no more calls than lines, and every call is the one some line makes. */
  lemma {:induction false} CallsCount(lines: seq<Option<ParsedLine>>)
    ensures |Calls(lines)| <= |lines|
    ensures forall c :: c in Calls(lines) ==> exists l :: l in lines && TableCall(l) == Some(c)
  {
    if lines != [] {
      var init := lines[..|lines| - 1];
      CallsCount(init);
      forall c | c in Calls(lines)
        ensures exists l :: l in lines && TableCall(l) == Some(c)
      {
        if c in Calls(init) {
          var l :| l in init && TableCall(l) == Some(c);
          assert l in lines;
        } else {
          assert TableCall(lines[|lines| - 1]) == Some(c);
        }
      }
    }
  }

  /** How many of `lines` are query or reply lines. */
  function TableLineCount(lines: seq<Option<ParsedLine>>): nat {
    if lines == [] then 0
    else
      var l := lines[|lines| - 1];
      TableLineCount(lines[..|lines| - 1]) + (if l.Some? && (l.value.Query? || l.value.Reply?) then 1 else 0)
  }

  /** Each query or reply line makes exactly one call, and no other line makes one. */
  lemma {:induction false} CallsLength(lines: seq<Option<ParsedLine>>)
    ensures |Calls(lines)| == TableLineCount(lines)
  {
    if lines != [] {
      CallsLength(lines[..|lines| - 1]);
    }
  }
}
