/** Classification of one line of dnsmasq's log output (src/line_parser.rs).
 *
 *  Every capture group in the six regular expressions of `DnsmasqLineParser::new` is followed
 *  either by the end of the expression or by a literal whose first character lies outside the
 *  group's class, so the regex engine's leftmost-first choice of capture is always the longest
 *  run of the class.  (The repetitions nested inside the version and path groups do not have
 *  this property; the version group is captured as a run of digits and dots, the path group as a run
 *  of non-space characters, and `Build` checks their inner shape afterwards.)  Each expression is therefore written
 *  down as data: the common beginning (the process name and its bracketed pid) followed by a
 *  list of pieces, each a literal to expect or a class whose longest run is captured.  One
 *  interpreter (`MatchPieces`) walks a line against those pieces, and an unanchored search
 *  (`Find`) tries every suffix of the line from the left.
 */
module LineParser {
  import opened Wrappers
  import opened Ints

  // ---------------------------------------------------------------------------------------
  // Characters and runs
  // ---------------------------------------------------------------------------------------

  /** The character classes that occur in the six patterns. */
  datatype CharClass =
    | Digit       // \d
    | Word        // \w
    | DomainChar  // [\w\.]
    | DigitOrDot  // [\d\.]
    | NonSpace    // \S

  predicate IsDigit(c: char) { '0' <= c <= '9' }

  predicate IsWordChar(c: char) { IsDigit(c) || 'a' <= c <= 'z' || 'A' <= c <= 'Z' || c == '_' }

  /** Unicode White_Space, which is what `\s` (and so the complement of `\S`) means. */
  predicate IsWhitespace(c: char) {
    c == ' ' || '\t' <= c <= '\r' || c == '\U{85}' || c == '\U{A0}' || c == '\U{1680}'
    || '\U{2000}' <= c <= '\U{200A}' || c == '\U{2028}' || c == '\U{2029}' || c == '\U{202F}'
    || c == '\U{205F}' || c == '\U{3000}'
  }

  predicate InClass(c: char, k: CharClass) {
    match k
    case Digit => IsDigit(c)
    case Word => IsWordChar(c)
    case DomainChar => IsWordChar(c) || c == '.'
    case DigitOrDot => IsDigit(c) || c == '.'
    case NonSpace => !IsWhitespace(c)
  }

  predicate AllIn(s: string, k: CharClass) {
    forall i :: 0 <= i < |s| ==> InClass(s[i], k)
  }

  /** A run of class `k` cannot continue into `s`. */
  predicate Ends(s: string, k: CharClass) {
    s == [] || !InClass(s[0], k)
  }

  /** A non-empty run of class `k`: what one repetition `k+` may capture. */
  predicate IsRun(s: string, k: CharClass) {
    s != [] && AllIn(s, k)
  }

  /** The length of the longest prefix of `s` made of class `k`. */
  function Span(s: string, k: CharClass): (n: nat)
    ensures n <= |s|
    ensures AllIn(s[..n], k)
    ensures Ends(s[n..], k)
  {
    if s == [] || !InClass(s[0], k) then 0
    else
      var n := 1 + Span(s[1..], k);
      assert s[1..][..n - 1] == s[1..n];
      assert s[1..][n - 1..] == s[n..];
      n
  }

  /** A capture and the part of the line after it. */
  datatype Token = Token(text: string, rest: string)

  /** The greedy repetition `k+` at the start of `s`: fails on an empty run. */
  function Run(s: string, k: CharClass): (r: Option<Token>)
    ensures r.None? <==> Ends(s, k)
    ensures r.Some? ==> s == r.value.text + r.value.rest
    ensures r.Some? ==> IsRun(r.value.text, k) && Ends(r.value.rest, k)
  {
    var n := Span(s, k);
    if n == 0 then None
    else
      assert s == s[..n] + s[n..];
      Some(Token(s[..n], s[n..]))
  }

  /** The literal `lit` at the start of `s`; gives the part of `s` after it. */
  function Expect(s: string, lit: string): (r: Option<string>)
    ensures r.Some? <==> lit <= s
    ensures r.Some? ==> s == lit + r.value
  {
    if lit <= s then
      assert s == lit + s[|lit|..];
      Some(s[|lit|..])
    else None
  }

  /** The longest run is the only prefix of class `k` that cannot be extended. */
  lemma {:induction false} SpanUnique(s: string, k: CharClass, m: nat)
    requires m <= |s| && AllIn(s[..m], k) && Ends(s[m..], k)
    ensures Span(s, k) == m
  {
    if m > 0 {
      assert s[..m][0] == s[0];
      assert s[1..][..m - 1] == s[..m][1..];
      assert s[1..][m - 1..] == s[m..];
      SpanUnique(s[1..], k, m - 1);
    }
  }

  lemma RunOf(text: string, rest: string, k: CharClass)
    requires IsRun(text, k) && Ends(rest, k)
    ensures Run(text + rest, k) == Some(Token(text, rest))
  {
    var s := text + rest;
    assert s[..|text|] == text && s[|text|..] == rest;
    SpanUnique(s, k, |text|);
  }

  lemma ExpectOf(lit: string, rest: string)
    ensures Expect(lit + rest, lit) == Some(rest)
  {
    assert lit <= lit + rest;
    assert (lit + rest)[|lit|..] == rest;
  }

  // ---------------------------------------------------------------------------------------
  // Decimal numbers
  // ---------------------------------------------------------------------------------------

  function DigitValue(c: char): nat
    requires IsDigit(c)
  {
    c as int - '0' as int
  }

  /** The value of a string of ASCII digits read as a decimal numeral. */
  function DecimalValue(s: string): nat
    requires AllIn(s, Digit)
  {
    if s == [] then 0 else 10 * DecimalValue(s[..|s| - 1]) + DigitValue(s[|s| - 1])
  }

  /** `str::parse` for an unsigned integer type whose values are below `limit`: an optional
   *  leading `+`, then one or more ASCII digits, and a value that fits. */
  function ParseUnsigned(s: string, limit: nat): (r: Option<nat>)
    ensures r.Some? ==> r.value < limit
    ensures IsRun(s, Digit) ==> (r.Some? <==> DecimalValue(s) < limit)
    ensures IsRun(s, Digit) && r.Some? ==> r.value == DecimalValue(s)
  {
    var digits := if s != [] && s[0] == '+' then s[1..] else s;
    if !IsRun(digits, Digit) then None
    else
      var v := DecimalValue(digits);
      if v < limit then Some(v) else None
  }

  function ParseU64(s: string): Option<u64> {
    var v :- ParseUnsigned(s, U64_LIMIT);
    Some(v as u64)
  }

  function ParseU32(s: string): Option<u32> {
    var v :- ParseUnsigned(s, U32_LIMIT);
    Some(v as u32)
  }

  function DigitChar(d: nat): (c: char)
    requires d < 10
    ensures IsDigit(c) && DigitValue(c) == d
  {
    ('0' as int + d) as char
  }

  /** The decimal numeral of `n`, without leading zeros. */
  function Decimal(n: nat): (s: string)
    ensures IsRun(s, Digit)
  {
    if n < 10 then [DigitChar(n)] else Decimal(n / 10) + [DigitChar(n % 10)]
  }

  lemma {:induction false} DecimalValueOfDecimal(n: nat)
    ensures DecimalValue(Decimal(n)) == n
  {
    if n >= 10 {
      var s := Decimal(n);
      assert s[..|s| - 1] == Decimal(n / 10);
      DecimalValueOfDecimal(n / 10);
    }
  }

  /** Parsing the decimal numeral of an id gives the id back. */
  lemma ParseU64OfDecimal(n: u64)
    ensures ParseU64(Decimal(n as nat)) == Some(n)
  {
    DecimalValueOfDecimal(n as nat);
  }

  // ---------------------------------------------------------------------------------------
  // Parsed lines
  // ---------------------------------------------------------------------------------------

  /** `std::net::IpAddr`. */
  datatype IpAddr = V4(octets: seq<u8>) | V6(segments: seq<u16>)

  /** `DnsmasqParsedLine`; a `PathBuf` is kept as the string it was built from. */
  datatype ParsedLine =
    | Start(version: string, cacheSize: u32)
    | NameServer(server: string)
    | ReadHosts(path: string, addressCount: u32)
    | Query(id: u64, source: string, query: string, domain: string, from: IpAddr)
    | Reply(id: u64, cached: bool, domain: string, result: Option<IpAddr>)

  /** The named groups one pattern captures, as substrings of the line. */
  datatype Captures =
    | QueryCaptures(id: string, source: string, query: string, domain: string, from: string)
    | CachedCaptures(id: string, domain: string, ip: string)
    | ReplyCaptures(id: string, domain: string, ip: string)
    | StartedCaptures(version: string, cacheSize: string)
    | ReadHostsCaptures(path: string, addressCount: string)
    | NameServerCaptures(address: string)

  // ---------------------------------------------------------------------------------------
  // The six patterns as data
  // ---------------------------------------------------------------------------------------

  const Marker: string := "dnsmasq["

  /** The common beginning of every pattern: the marker, a run of digits (the process id) and
   *  `]: `; gives the text after it. */
  function MatchPrefix(s: string): (r: Option<string>)
    ensures r.Some? ==> Marker <= s
  {
    var afterMarker :- Expect(s, Marker);
    var pid :- Run(afterMarker, Digit);
    Expect(pid.rest, "]: ")
  }

  /** One element of a pattern after its common beginning: a literal, or a capture group that
   *  repeats a character class one or more times. */
  datatype Piece = Lit(text: string) | Group(k: CharClass)

  /** A pattern after its common beginning: its pieces in order. */
  datatype Pieces = Done | Then(head: Piece, next: Pieces)

  /** The texts the groups of a pattern captured, in order, and the text after the match. */
  datatype Match = Match(groups: seq<string>, rest: string)

  /** The classes of the groups among `ps`, in order. */
  function Classes(ps: Pieces): seq<CharClass> {
    match ps
    case Done => []
    case Then(p, next) => (if p.Group? then [p.k] else []) + Classes(next)
  }

  /** `ps` at the start of `s`: each literal must be present, and each group takes the
   *  longest non-empty run of its class. */
  function MatchPieces(ps: Pieces, s: string): (r: Option<Match>)
    ensures r.Some? ==> |r.value.groups| == |Classes(ps)|
  {
    match ps
    case Done => Some(Match([], s))
    case Then(Lit(lit), next) =>
      var after :- Expect(s, lit);
      MatchPieces(next, after)
    case Then(Group(k), next) =>
      var t :- Run(s, k);
      var m :- MatchPieces(next, t.rest);
      Some(Match([t.text] + m.groups, m.rest))
  }

  datatype Pattern =
    | QueryPattern
    | CachedReplyPattern
    | ReplyPattern
    | StartedPattern
    | ReadHostsPattern
    | NameServerPattern

  /** The order in which `parse_line` tries the patterns. */
  const Priority: seq<Pattern> :=
    [QueryPattern, CachedReplyPattern, ReplyPattern, StartedPattern, ReadHostsPattern, NameServerPattern]

  /** The keyword between the source and the domain of a reply line. */
  function ReplyKeyword(cached: bool): string {
    if cached then " cached " else " reply "
  }

  /** A reply line after its common beginning: id, source, keyword, domain, `is`, address. */
  function ReplyTail(cached: bool): Pieces {
    Then(Group(Digit), Then(Lit(" "), Then(Group(NonSpace), Then(Lit(ReplyKeyword(cached)),
    Then(Group(DomainChar), Then(Lit(" is "), Then(Group(NonSpace), Done)))))))
  }

  /** The classes of the groups of each pattern, in order. */
  function GroupClasses(p: Pattern): seq<CharClass> {
    match p
    case QueryPattern => [Digit, NonSpace, Word, DomainChar, NonSpace]
    case CachedReplyPattern => [Digit, NonSpace, DomainChar, NonSpace]
    case ReplyPattern => [Digit, NonSpace, DomainChar, NonSpace]
    case StartedPattern => [DigitOrDot, Digit]
    case ReadHostsPattern => [NonSpace, Digit]
    case NameServerPattern => [DigitOrDot]
  }

  /** Each pattern after its common beginning.  The version group of the started banner, the
   *  path group of the hosts-file banner and the optional port of the nameserver banner are
   *  refined by `Build`.  In every pattern a group is followed by the end of the pattern or by
   *  a literal that begins outside the group's class. */
  function Tail(p: Pattern): Pieces {
    match p
    case QueryPattern =>
      // id, source, `query[`, query type, `] `, domain, `from`, client address
      Then(Group(Digit), Then(Lit(" "), Then(Group(NonSpace), Then(Lit(" query["), Then(Group(Word),
      Then(Lit("] "), Then(Group(DomainChar), Then(Lit(" from "), Then(Group(NonSpace), Done)))))))))
    case CachedReplyPattern => ReplyTail(true)
    case ReplyPattern => ReplyTail(false)
    case StartedPattern =>
      Then(Lit("started, version "), Then(Group(DigitOrDot), Then(Lit(" cachesize "), Then(Group(Digit), Done))))
    case ReadHostsPattern =>
      Then(Lit("read "), Then(Group(NonSpace), Then(Lit(" - "), Then(Group(Digit), Then(Lit(" addresses"), Done)))))
    case NameServerPattern => Then(Lit("using nameserver "), Then(Group(DigitOrDot), Done))
  }

  /** The groups of each pattern's tail have the classes `GroupClasses` lists, and each is
   *  followed by the end of the pattern or by a literal that begins outside its class. */
  lemma TailFacts(p: Pattern)
    ensures Classes(Tail(p)) == GroupClasses(p)
    ensures Separated(Tail(p))
  {
    match p
    case QueryPattern => QueryTailFacts();
    case CachedReplyPattern => ReplyTailFacts(true);
    case ReplyPattern => ReplyTailFacts(false);
    case StartedPattern =>
    case ReadHostsPattern =>
    case NameServerPattern =>
  }

  lemma QueryTailFacts()
    ensures Classes(Tail(QueryPattern)) == GroupClasses(QueryPattern)
    ensures Separated(Tail(QueryPattern))
  {
  }

  lemma ReplyTailFacts(cached: bool)
    ensures Classes(ReplyTail(cached)) == [Digit, NonSpace, DomainChar, NonSpace]
    ensures Separated(ReplyTail(cached))
  {
  }

  /** The language of the version group among runs of digits and dots: a digit first, and
   *  never two dots in a row. */
  predicate IsVersion(v: string) {
    v != [] && IsDigit(v[0]) && forall i :: 0 <= i < |v| - 1 ==> !DotsAt(v, i)
  }

  /** Two dots in a row at index `i` of `v`. */
  predicate DotsAt(v: string, i: nat)
    requires i + 1 < |v|
  {
    v[i] == '.' && v[i + 1] == '.'
  }

  /** The language of the path group among runs without whitespace: one or more repetitions
   *  of a slash followed by at least one character, that is a slash and one character more. */
  predicate IsHostsPath(p: string) {
    |p| >= 2 && p[0] == '/'
  }

  /** A port suffix: `#` and one or more digits. */
  predicate IsPort(p: string) {
    |p| >= 2 && p[0] == '#' && AllIn(p[1..], Digit)
  }

  /** The greedy optional port suffix at the start of `s`. */
  function PortSuffix(s: string): (p: string)
    ensures p <= s
    ensures p == [] || IsPort(p)
    ensures p == [] <==> !(|s| >= 2 && s[0] == '#' && IsDigit(s[1]))
    ensures p != [] ==> Ends(s[|p|..], Digit)
  {
    if |s| >= 2 && s[0] == '#' && IsDigit(s[1]) then
      var digits := Run(s[1..], Digit).value;
      assert s == "#" + digits.text + digits.rest;
      assert s[|digits.text| + 1..] == digits.rest;
      "#" + digits.text
    else []
  }

  /** Every group is followed by the end of the pattern or by a literal whose first character
   *  lies outside the group's class: then the longest run is the only run after which the
   *  rest of the pattern can match. */
  predicate Separated(ps: Pieces) {
    match ps
    case Done => true
    case Then(p, next) =>
      (p.Group? && next.Then? ==> next.head.Lit? && next.head.text != [] && !InClass(next.head.text[0], p.k))
      && Separated(next)
  }

  /** Which kind of captures each pattern produces. */
  predicate Yields(p: Pattern, c: Captures) {
    match p
    case QueryPattern => c.QueryCaptures?
    case CachedReplyPattern => c.CachedCaptures?
    case ReplyPattern => c.ReplyCaptures?
    case StartedPattern => c.StartedCaptures?
    case ReadHostsPattern => c.ReadHostsCaptures?
    case NameServerPattern => c.NameServerCaptures?
  }

  /** The named groups of pattern `p` from what its pieces matched. */
  function Build(p: Pattern, m: Match): (r: Option<Captures>)
    requires |m.groups| == |GroupClasses(p)|
    ensures r.Some? ==> Yields(p, r.value)
    ensures p == StartedPattern ==> (r.Some? <==> IsVersion(m.groups[0]))
    ensures p == ReadHostsPattern ==> (r.Some? <==> IsHostsPath(m.groups[0]))
    ensures p != StartedPattern && p != ReadHostsPattern ==> r.Some?
  {
    var g := m.groups;
    match p
    case QueryPattern => Some(QueryCaptures(g[0], g[1], g[2], g[3], g[4]))
    case CachedReplyPattern => Some(CachedCaptures(g[0], g[2], g[3]))
    case ReplyPattern => Some(ReplyCaptures(g[0], g[2], g[3]))
    case StartedPattern => if IsVersion(g[0]) then Some(StartedCaptures(g[0], g[1])) else None
    case ReadHostsPattern => if IsHostsPath(g[0]) then Some(ReadHostsCaptures(g[0], g[1])) else None
    case NameServerPattern => Some(NameServerCaptures(g[0] + PortSuffix(m.rest)))
  }

  /** Pattern `p` matched at the very start of `s`. */
  function MatchAt(p: Pattern, s: string): (r: Option<Captures>)
    ensures r.Some? ==> Marker <= s && Yields(p, r.value)
  {
    var body :- MatchPrefix(s);
    var m :- MatchPieces(Tail(p), body);
    TailFacts(p);
    Build(p, m)
  }

  // ---------------------------------------------------------------------------------------
  // Unanchored search and the priority order
  // ---------------------------------------------------------------------------------------

  /** `Regex::captures`: the match of `p` that starts earliest in `line`. */
  function Find(p: Pattern, line: string): Option<Captures>
    decreases |line|
  {
    var here := MatchAt(p, line);
    if here.Some? then here
    else if line == [] then None
    else Find(p, line[1..])
  }

  /** The field conversions `parse_line` applies to the captures of a pattern; `parseIp` is
   *  `IpAddr::from_str`. */
  function Convert(parseIp: string -> Option<IpAddr>, c: Captures): (r: Option<ParsedLine>)
    ensures c.QueryCaptures? ==> (r.Some? <==> ParseU64(c.id).Some? && parseIp(c.from).Some?)
    ensures c.CachedCaptures? ==> (r.Some? <==> ParseU64(c.id).Some? && parseIp(c.ip).Some?)
    ensures c.ReplyCaptures? ==> (r.Some? <==> ParseU64(c.id).Some?)
    ensures c.StartedCaptures? ==> (r.Some? <==> ParseU32(c.cacheSize).Some?)
    ensures c.ReadHostsCaptures? ==> (r.Some? <==> ParseU32(c.addressCount).Some?)
    ensures c.NameServerCaptures? ==> r.Some?
    ensures r.Some? ==> (c.QueryCaptures? <==> r.value.Query?)
    ensures r.Some? ==> (c.CachedCaptures? || c.ReplyCaptures? <==> r.value.Reply?)
    ensures r.Some? ==> (c.StartedCaptures? <==> r.value.Start?)
    ensures r.Some? ==> (c.ReadHostsCaptures? <==> r.value.ReadHosts?)
    ensures r.Some? ==> (c.NameServerCaptures? <==> r.value.NameServer?)
  {
    match c
    case QueryCaptures(id, source, query, domain, from) =>
      var n :- ParseU64(id);
      var ip :- parseIp(from);
      Some(Query(n, source, query, domain, ip))
    case CachedCaptures(id, domain, ip) =>
      var n :- ParseU64(id);
      var addr :- parseIp(ip);
      Some(Reply(n, true, domain, Some(addr)))
    case ReplyCaptures(id, domain, ip) =>
      var n :- ParseU64(id);
      Some(Reply(n, false, domain, parseIp(ip)))
    case StartedCaptures(version, cacheSize) =>
      var size :- ParseU32(cacheSize);
      Some(Start(version, size))
    case ReadHostsCaptures(path, addressCount) =>
      var count :- ParseU32(addressCount);
      Some(ReadHosts(path, count))
    case NameServerCaptures(address) =>
      Some(NameServer(address))
  }

  /** The outcome of trying the patterns in `Priority` order, given what each one captured:
   *  the first pattern that captured decides the result through its own conversion. */
  function Decide(parseIp: string -> Option<IpAddr>, query: Option<Captures>, cached: Option<Captures>,
                  reply: Option<Captures>, started: Option<Captures>, readHosts: Option<Captures>,
                  nameServer: Option<Captures>): Option<ParsedLine>
  {
    if query.Some? then Convert(parseIp, query.value)
    else if cached.Some? then Convert(parseIp, cached.value)
    else if reply.Some? then Convert(parseIp, reply.value)
    else if started.Some? then Convert(parseIp, started.value)
    else if readHosts.Some? then Convert(parseIp, readHosts.value)
    else if nameServer.Some? then Convert(parseIp, nameServer.value)
    else None
  }

  /** `DnsmasqLineParser::parse_line`: the first pattern that matches anywhere in the line
   *  decides the result, and a failed conversion gives `None` without trying later patterns. */
  function ParseLine(parseIp: string -> Option<IpAddr>, line: string): Option<ParsedLine> {
    Decide(parseIp, Find(QueryPattern, line), Find(CachedReplyPattern, line), Find(ReplyPattern, line),
           Find(StartedPattern, line), Find(ReadHostsPattern, line), Find(NameServerPattern, line))
  }

  // ---------------------------------------------------------------------------------------
  // The text a pattern describes
  // ---------------------------------------------------------------------------------------

  /** The text `ps` describes with `groups` as the texts of its groups, followed by `rest`. */
  function Render(ps: Pieces, groups: seq<string>, rest: string): string
    requires |groups| == |Classes(ps)|
  {
    match ps
    case Done => rest
    case Then(Lit(lit), next) => lit + Render(next, groups, rest)
    case Then(Group(_), next) => groups[0] + Render(next, groups[1..], rest)
  }

  /** Each group text is a run of its group's class. */
  predicate GroupsFit(ps: Pieces, groups: seq<string>)
    requires |groups| == |Classes(ps)|
  {
    forall j :: 0 <= j < |groups| ==> IsRun(groups[j], Classes(ps)[j])
  }

  /** The class of the last piece of `ps` when that piece is a group. */
  function LastGroup(ps: Pieces): Option<CharClass> {
    match ps
    case Done => None
    case Then(p, Done) => if p.Group? then Some(p.k) else None
    case Then(_, next) => LastGroup(next)
  }

  /** When `ps` ends in a group, that group's run cannot continue into `rest`. */
  predicate TailEnds(ps: Pieces, rest: string) {
    LastGroup(ps).Some? ==> Ends(rest, LastGroup(ps).value)
  }

  /** `dnsmasq[<pid>]: ` followed by `s`. */
  function Prefixed(pid: string, s: string): string {
    Marker + (pid + ("]: " + s))
  }

  /** The log line that pattern `p` describes, with process id `pid` and groups `groups`,
   *  followed by `rest`. */
  function Line(p: Pattern, pid: string, groups: seq<string>, rest: string): string
    requires |groups| == |GroupClasses(p)|
  {
    TailFacts(p);
    Prefixed(pid, Render(Tail(p), groups, rest))
  }

  // ---------------------------------------------------------------------------------------
  // A pattern captures exactly the pieces of the text it describes
  // ---------------------------------------------------------------------------------------

  lemma MatchPrefixOf(pid: string, s: string)
    requires IsRun(pid, Digit)
    ensures MatchPrefix(Prefixed(pid, s)) == Some(s)
  {
    ExpectOf(Marker, pid + ("]: " + s));
    RunOf(pid, "]: " + s, Digit);
    ExpectOf("]: ", s);
  }

  lemma PrefixShape(s: string) returns (pid: string)
    requires MatchPrefix(s).Some?
    ensures IsRun(pid, Digit) && s == Prefixed(pid, MatchPrefix(s).value)
  {
    var afterMarker := Expect(s, Marker).value;
    var t := Run(afterMarker, Digit).value;
    pid := t.text;
  }

  /** Matching the text that pieces describe gives back exactly its groups and what follows. */
  lemma {:induction false} MatchPiecesOf(ps: Pieces, groups: seq<string>, rest: string)
    requires Separated(ps) && |groups| == |Classes(ps)| && GroupsFit(ps, groups) && TailEnds(ps, rest)
    ensures MatchPieces(ps, Render(ps, groups, rest)) == Some(Match(groups, rest))
  {
    match ps
    case Done =>
    case Then(Lit(lit), next) =>
      assert TailEnds(next, rest) by { if next.Done? { } }
      ExpectOf(lit, Render(next, groups, rest));
      MatchPiecesOf(next, groups, rest);
    case Then(Group(k), next) =>
      var after := Render(next, groups[1..], rest);
      assert Classes(ps) == [k] + Classes(next);
      assert IsRun(groups[0], k) by { assert Classes(ps)[0] == k; }
      assert GroupsFit(next, groups[1..]) by {
        forall j | 0 <= j < |groups| - 1
          ensures IsRun(groups[1..][j], Classes(next)[j])
        {
          assert Classes(ps)[j + 1] == Classes(next)[j];
        }
      }
      assert Ends(after, k) by {
        if next.Then? {
          assert after[0] == next.head.text[0];
        }
      }
      assert TailEnds(next, rest) by { if next.Done? { } }
      RunOf(groups[0], after, k);
      MatchPiecesOf(next, groups[1..], rest);
      assert [groups[0]] + groups[1..] == groups;
  }

  /** Conversely, whatever pieces match is the text they describe. */
  lemma {:induction false} MatchPiecesShape(ps: Pieces, s: string)
    requires MatchPieces(ps, s).Some?
    ensures var m := MatchPieces(ps, s).value;
      GroupsFit(ps, m.groups) && TailEnds(ps, m.rest) && s == Render(ps, m.groups, m.rest)
  {
    match ps
    case Done =>
    case Then(Lit(lit), next) =>
      var after := Expect(s, lit).value;
      MatchPiecesShape(next, after);
      assert TailEnds(ps, MatchPieces(ps, s).value.rest) by { if next.Done? { } }
    case Then(Group(k), next) =>
      var t := Run(s, k).value;
      MatchPiecesShape(next, t.rest);
      var m' := MatchPieces(next, t.rest).value;
      var m := MatchPieces(ps, s).value;
      assert m.groups == [t.text] + m'.groups;
      assert m.groups[1..] == m'.groups;
      assert Classes(ps) == [k] + Classes(next);
      assert GroupsFit(ps, m.groups) by {
        forall j | 0 <= j < |m.groups|
          ensures IsRun(m.groups[j], Classes(ps)[j])
        {
          if j > 0 {
            assert m.groups[j] == m'.groups[j - 1];
            assert Classes(ps)[j] == Classes(next)[j - 1];
          }
        }
      }
      assert TailEnds(ps, m.rest) by { if next.Done? { assert m.rest == t.rest; } }
  }

  /** A line of the shape pattern `p` describes is matched by `p` with exactly its own
   *  groups. */
  lemma LineMatches(p: Pattern, pid: string, groups: seq<string>, rest: string)
    requires IsRun(pid, Digit) && |groups| == |GroupClasses(p)|
    requires GroupsFit(Tail(p), groups) && TailEnds(Tail(p), rest)
    ensures MatchAt(p, Line(p, pid, groups, rest)) == Build(p, Match(groups, rest))
  {
    TailFacts(p);
    MatchPrefixOf(pid, Render(Tail(p), groups, rest));
    MatchPiecesOf(Tail(p), groups, rest);
  }

  /** Whatever pattern `p` matches at the start of a text is such a line. */
  lemma LineShape(p: Pattern, s: string) returns (pid: string, groups: seq<string>, rest: string)
    requires MatchAt(p, s).Some?
    ensures IsRun(pid, Digit) && |groups| == |GroupClasses(p)|
    ensures GroupsFit(Tail(p), groups) && TailEnds(Tail(p), rest)
    ensures s == Line(p, pid, groups, rest) && MatchAt(p, s) == Build(p, Match(groups, rest))
  {
    TailFacts(p);
    pid := PrefixShape(s);
    var body := MatchPrefix(s).value;
    MatchPiecesShape(Tail(p), body);
    var m := MatchPieces(Tail(p), body).value;
    groups, rest := m.groups, m.rest;
  }

  // ---------------------------------------------------------------------------------------
  // The lines of each kind
  // ---------------------------------------------------------------------------------------

  /** `dnsmasq[<pid>]: <id> <source> query[<query>] <domain> from <from>` followed by `rest`. */
  function QueryLine(pid: string, id: string, source: string, query: string, domain: string,
                     from: string, rest: string): string
  {
    Line(QueryPattern, pid, [id, source, query, domain, from], rest)
  }

  /** `dnsmasq[<pid>]: <id> <source> cached <domain> is <ip>`, or `reply` in place of `cached`
   *  when not `cached`, followed by `rest`. */
  function ReplyLine(pid: string, id: string, source: string, cached: bool, domain: string,
                     ip: string, rest: string): string
  {
    Line(if cached then CachedReplyPattern else ReplyPattern, pid, [id, source, domain, ip], rest)
  }

  /** `dnsmasq[<pid>]: started, version <version> cachesize <cacheSize>` followed by `rest`. */
  function StartedLine(pid: string, version: string, cacheSize: string, rest: string): string {
    Line(StartedPattern, pid, [version, cacheSize], rest)
  }

  /** `dnsmasq[<pid>]: read <path> - <count> addresses` followed by `rest`. */
  function ReadHostsLine(pid: string, path: string, count: string, rest: string): string {
    Line(ReadHostsPattern, pid, [path, count], rest)
  }

  /** `dnsmasq[<pid>]: using nameserver <address><port>` followed by `rest`. */
  function NameServerLine(pid: string, address: string, port: string, rest: string): string {
    Line(NameServerPattern, pid, [address], port + rest)
  }

  // Each text lemma unfolds `Render` one piece at a time, from the last piece to the first.

  lemma QueryLineText(pid: string, id: string, source: string, query: string, domain: string,
                      from: string, rest: string)
    ensures QueryLine(pid, id, source, query, domain, from, rest)
         == Prefixed(pid, id + (" " + (source + (" query[" + (query + ("] " + (domain + (" from " + (from + rest)))))))))
  {
    var p1 := Tail(QueryPattern).next;
    var p2 := p1.next;
    var p3 := p2.next;
    var p4 := p3.next;
    var p5 := p4.next;
    var p6 := p5.next;
    var p7 := p6.next;
    var p8 := p7.next;
    var g := [id, source, query, domain, from];
    assert g[1..] == [source, query, domain, from];
    assert g[1..][1..] == [query, domain, from];
    assert g[1..][1..][1..] == [domain, from];
    assert g[1..][1..][1..][1..] == [from];
    var s8 := from + rest;
    var s7 := " from " + s8;
    var s6 := domain + s7;
    var s5 := "] " + s6;
    var s4 := query + s5;
    var s3 := " query[" + s4;
    var s2 := source + s3;
    var s1 := " " + s2;
    assert Render(p8, [from], rest) == s8;
    assert Render(p7, [from], rest) == s7;
    assert Render(p6, [domain, from], rest) == s6;
    assert Render(p5, [domain, from], rest) == s5;
    assert Render(p4, [query, domain, from], rest) == s4;
    assert Render(p3, [query, domain, from], rest) == s3;
    assert Render(p2, [source, query, domain, from], rest) == s2;
    assert Render(p1, [source, query, domain, from], rest) == s1;
  }

  lemma ReplyLineText(pid: string, id: string, source: string, cached: bool, domain: string,
                      ip: string, rest: string)
    ensures ReplyLine(pid, id, source, cached, domain, ip, rest)
         == Prefixed(pid, id + (" " + (source + (ReplyKeyword(cached) + (domain + (" is " + (ip + rest)))))))
  {
    var p1 := ReplyTail(cached).next;
    var p2 := p1.next;
    var p3 := p2.next;
    var p4 := p3.next;
    var p5 := p4.next;
    var p6 := p5.next;
    var g := [id, source, domain, ip];
    assert g[1..] == [source, domain, ip];
    assert g[1..][1..] == [domain, ip];
    assert g[1..][1..][1..] == [ip];
    var s6 := ip + rest;
    var s5 := " is " + s6;
    var s4 := domain + s5;
    var s3 := ReplyKeyword(cached) + s4;
    var s2 := source + s3;
    var s1 := " " + s2;
    assert Render(p6, [ip], rest) == s6;
    assert Render(p5, [ip], rest) == s5;
    assert Render(p4, [domain, ip], rest) == s4;
    assert Render(p3, [domain, ip], rest) == s3;
    assert Render(p2, [source, domain, ip], rest) == s2;
    assert Render(p1, [source, domain, ip], rest) == s1;
  }

  lemma StartedLineText(pid: string, version: string, cacheSize: string, rest: string)
    ensures StartedLine(pid, version, cacheSize, rest)
         == Prefixed(pid, "started, version " + (version + (" cachesize " + (cacheSize + rest))))
  {
    var p1 := Tail(StartedPattern).next;
    assert [version, cacheSize][1..] == [cacheSize];
    assert Render(p1.next.next, [cacheSize], rest) == cacheSize + rest;
    assert Render(p1.next, [cacheSize], rest) == " cachesize " + (cacheSize + rest);
    assert Render(p1, [version, cacheSize], rest) == version + (" cachesize " + (cacheSize + rest));
  }

  lemma ReadHostsLineText(pid: string, path: string, count: string, rest: string)
    ensures ReadHostsLine(pid, path, count, rest)
         == Prefixed(pid, "read " + (path + (" - " + (count + (" addresses" + rest)))))
  {
    var p1 := Tail(ReadHostsPattern).next;
    assert [path, count][1..] == [count];
    assert [count][1..] == [];
    assert Render(p1.next.next.next, [], rest) == " addresses" + rest;
    assert Render(p1.next.next, [count], rest) == count + (" addresses" + rest);
    assert Render(p1.next, [count], rest) == " - " + (count + (" addresses" + rest));
    assert Render(p1, [path, count], rest) == path + (" - " + (count + (" addresses" + rest)));
  }

  lemma NameServerLineText(pid: string, address: string, port: string, rest: string)
    ensures NameServerLine(pid, address, port, rest)
         == Prefixed(pid, "using nameserver " + (address + (port + rest)))
  {
    var ps := Tail(NameServerPattern);
    assert Render(ps.next, [address], port + rest) == address + (port + rest);
  }

  // ---------------------------------------------------------------------------------------
  // Unanchored search
  // ---------------------------------------------------------------------------------------

  /** `Find` gives the match at the smallest offset of the line at which the pattern matches. */
  lemma {:induction false} FindIsLeftmost(p: Pattern, line: string) returns (j: nat)
    requires Find(p, line).Some?
    ensures j <= |line| && MatchAt(p, line[j..]) == Find(p, line)
    ensures forall i :: 0 <= i < j ==> MatchAt(p, line[i..]).None?
  {
    if MatchAt(p, line).Some? {
      j := 0;
      assert line[0..] == line;
    } else {
      var k := FindIsLeftmost(p, line[1..]);
      j := k + 1;
      assert line[1..][k..] == line[j..];
      forall i | 0 <= i < j
        ensures MatchAt(p, line[i..]).None?
      {
        if i == 0 {
          assert line[0..] == line;
        } else {
          assert line[1..][i - 1..] == line[i..];
        }
      }
    }
  }

  /** `Find` fails exactly when the pattern matches at no offset of the line. */
  lemma {:induction false} FindNoneIff(p: Pattern, line: string)
    ensures Find(p, line).None? <==> forall j :: 0 <= j <= |line| ==> MatchAt(p, line[j..]).None?
    decreases |line|
  {
    assert line[0..] == line;
    if line != [] {
      FindNoneIff(p, line[1..]);
      forall j | 1 <= j <= |line|
        ensures line[1..][j - 1..] == line[j..]
      {
      }
    }
  }

  /** The line holds `dnsmasq[` at its start and nowhere else.  This is an assumption of the
   *  lemmas that use it: `parse_line` itself searches the whole line. */
  predicate MarkerOnlyAtStart(line: string) {
    Marker <= line && forall j :: 0 < j <= |line| ==> !MarkerAt(line, j)
  }

  /** `dnsmasq[` starts at index `j` of the line. */
  predicate MarkerAt(line: string, j: nat)
    requires j <= |line|
  {
    Marker <= line[j..]
  }

  /** On such a line the search for any pattern comes down to a match at the start. */
  lemma FindAtStart(p: Pattern, line: string)
    requires MarkerOnlyAtStart(line)
    ensures Find(p, line) == MatchAt(p, line)
  {
    if MatchAt(p, line).None? {
      forall j | 0 <= j <= |line|
        ensures MatchAt(p, line[j..]).None?
      {
        if j == 0 {
          assert line[0..] == line;
        } else {
          assert !MarkerAt(line, j);
        }
      }
      FindNoneIff(p, line);
    }
  }

  /** A line whose only `[` is the one of its leading `dnsmasq[`. */
  lemma MarkerOnlyAtStartOf(tail: string)
    requires '[' !in tail
    ensures MarkerOnlyAtStart(Marker + tail)
  {
    var line := Marker + tail;
    forall j | 0 < j <= |line|
      ensures !MarkerAt(line, j)
    {
      if j + |Marker| <= |line| {
        assert line[j..][7] == tail[j - 1];
        assert tail[j - 1] in tail;
      }
    }
  }

  /** `ParseLine` with every search replaced by a match at the start of the line. */
  function ParseAtStart(parseIp: string -> Option<IpAddr>, line: string): Option<ParsedLine> {
    Decide(parseIp, MatchAt(QueryPattern, line), MatchAt(CachedReplyPattern, line),
           MatchAt(ReplyPattern, line), MatchAt(StartedPattern, line), MatchAt(ReadHostsPattern, line),
           MatchAt(NameServerPattern, line))
  }

  /** On a line that holds `dnsmasq[` only at its start, `parse_line` reads the line from its
   *  start. */
  lemma ParseLineAtStart(parseIp: string -> Option<IpAddr>, line: string)
    requires MarkerOnlyAtStart(line)
    ensures ParseLine(parseIp, line) == ParseAtStart(parseIp, line)
  {
    FindAtStart(QueryPattern, line);
    FindAtStart(CachedReplyPattern, line);
    FindAtStart(ReplyPattern, line);
    FindAtStart(StartedPattern, line);
    FindAtStart(ReadHostsPattern, line);
    FindAtStart(NameServerPattern, line);
  }

  // ---------------------------------------------------------------------------------------
  // What tells the patterns apart
  // ---------------------------------------------------------------------------------------

  /** After the common beginning, a pattern is matched by its own pieces. */
  lemma MatchAtPrefixed(p: Pattern, pid: string, body: string)
    requires IsRun(pid, Digit)
    ensures MatchAt(p, Prefixed(pid, body))
         == if MatchPieces(Tail(p), body).Some? then Build(p, MatchPieces(Tail(p), body).value) else None
  {
    MatchPrefixOf(pid, body);
  }

  /** The first piece of a pattern cannot begin `body`. */
  predicate FirstFails(piece: Piece, body: string) {
    body == []
    || match piece
       case Lit(t) => t != [] && t[0] != body[0]
       case Group(k) => !InClass(body[0], k)
  }

  /** The first piece of each pattern's tail. */
  function Head(p: Pattern): Piece {
    match p
    case QueryPattern | CachedReplyPattern | ReplyPattern => Group(Digit)
    case StartedPattern => Lit("started, version ")
    case ReadHostsPattern => Lit("read ")
    case NameServerPattern => Lit("using nameserver ")
  }

  lemma TailHead(p: Pattern)
    ensures Tail(p).Then? && Tail(p).head == Head(p)
  {
  }

  /** A pattern whose first piece cannot begin the text after the common beginning fails. */
  lemma FirstPieceFails(p: Pattern, pid: string, body: string)
    requires IsRun(pid, Digit) && FirstFails(Head(p), body)
    ensures MatchAt(p, Prefixed(pid, body)).None?
  {
    TailHead(p);
    MatchPrefixOf(pid, body);
    assert MatchPieces(Tail(p), body).None?;
  }

  /** Query and reply lines agree up to the literal after the source; a pattern whose fourth
   *  piece is a literal other than the one the text holds there fails on it. */
  lemma LeadDiverges(ps: Pieces, id: string, source: string, s3: string)
    requires ps.Then? && ps.head == Group(Digit)
    requires ps.next.Then? && ps.next.head == Lit(" ")
    requires ps.next.next.Then? && ps.next.next.head == Group(NonSpace)
    requires ps.next.next.next.Then? && ps.next.next.next.head.Lit?
    requires IsRun(id, Digit) && IsRun(source, NonSpace) && Ends(s3, NonSpace)
    requires !(ps.next.next.next.head.text <= s3)
    ensures MatchPieces(ps, id + (" " + (source + s3))).None?
  {
    assert MatchPieces(ps.next.next.next, s3).None?;
    RunOf(source, s3, NonSpace);
    assert MatchPieces(ps.next.next, source + s3).None?;
    ExpectOf(" ", source + s3);
    assert MatchPieces(ps.next, " " + (source + s3)).None?;
    RunOf(id, " " + (source + s3), Digit);
  }

  /** The query pattern's tail fails on a body whose fourth field does not start `q`. */
  lemma QueryTailRejects(id: string, source: string, s3: string)
    requires IsRun(id, Digit) && IsRun(source, NonSpace)
    requires |s3| >= 2 && s3[0] == ' ' && s3[1] != 'q'
    ensures MatchPieces(Tail(QueryPattern), id + (" " + (source + s3))).None?
  {
    LeadDiverges(Tail(QueryPattern), id, source, s3);
  }

  /** The cached-reply pattern's tail fails on a body whose fourth field does not start `c`. */
  lemma CachedTailRejects(id: string, source: string, s3: string)
    requires IsRun(id, Digit) && IsRun(source, NonSpace)
    requires |s3| >= 2 && s3[0] == ' ' && s3[1] != 'c'
    ensures MatchPieces(Tail(CachedReplyPattern), id + (" " + (source + s3))).None?
  {
    LeadDiverges(Tail(CachedReplyPattern), id, source, s3);
  }

  /** The text of a reply line from its keyword on starts with a space and `c` or `r`. */
  lemma KeywordStart(cached: bool, t: string)
    ensures var s3 := ReplyKeyword(cached) + t;
            |s3| >= 2 && s3[0] == ' ' && s3[1] == if cached then 'c' else 'r'
  {
  }

  /** The query pattern expects ` query[` where a reply line has its keyword. */
  lemma ReplyLineNotQuery(pid: string, id: string, source: string, cached: bool, domain: string,
                          ip: string, rest: string)
    requires IsRun(pid, Digit) && IsRun(id, Digit) && IsRun(source, NonSpace)
    ensures MatchAt(QueryPattern, ReplyLine(pid, id, source, cached, domain, ip, rest)).None?
  {
    var s3 := ReplyKeyword(cached) + (domain + (" is " + (ip + rest)));
    ReplyLineText(pid, id, source, cached, domain, ip, rest);
    KeywordStart(cached, domain + (" is " + (ip + rest)));
    QueryTailRejects(id, source, s3);
    MatchAtPrefixed(QueryPattern, pid, id + (" " + (source + s3)));
  }

  /** The cached-reply pattern expects ` cached ` where a plain reply line has ` reply `. */
  lemma PlainLineNotCached(pid: string, id: string, source: string, domain: string, ip: string,
                           rest: string)
    requires IsRun(pid, Digit) && IsRun(id, Digit) && IsRun(source, NonSpace)
    ensures MatchAt(CachedReplyPattern, ReplyLine(pid, id, source, false, domain, ip, rest)).None?
  {
    var s3 := ReplyKeyword(false) + (domain + (" is " + (ip + rest)));
    ReplyLineText(pid, id, source, false, domain, ip, rest);
    KeywordStart(false, domain + (" is " + (ip + rest)));
    CachedTailRejects(id, source, s3);
    MatchAtPrefixed(CachedReplyPattern, pid, id + (" " + (source + s3)));
  }

  /** A reply line is not a query line, and a plain reply line is not a cached one. */
  lemma ReplyLineKeyword(pid: string, id: string, source: string, cached: bool, domain: string,
                         ip: string, rest: string)
    requires IsRun(pid, Digit) && IsRun(id, Digit) && IsRun(source, NonSpace)
    ensures MatchAt(QueryPattern, ReplyLine(pid, id, source, cached, domain, ip, rest)).None?
    ensures !cached ==> MatchAt(CachedReplyPattern, ReplyLine(pid, id, source, cached, domain, ip, rest)).None?
  {
    ReplyLineNotQuery(pid, id, source, cached, domain, ip, rest);
    if !cached {
      PlainLineNotCached(pid, id, source, domain, ip, rest);
    }
  }

  /** What may follow the address of a nameserver line: nothing that would lengthen the
   *  address, and, when there is no port, nothing that would be read as one. */
  predicate EndsAddress(port: string, rest: string) {
    if port == [] then Ends(rest, DigitOrDot) && !(|rest| >= 2 && rest[0] == '#' && IsDigit(rest[1]))
    else Ends(rest, Digit)
  }

  lemma PortSuffixOf(port: string, rest: string)
    requires port == [] || IsPort(port)
    requires EndsAddress(port, rest)
    ensures PortSuffix(port + rest) == port
  {
    if port != [] {
      var digits := port[1..];
      assert (port + rest)[1..] == digits + rest;
      RunOf(digits, rest, Digit);
      assert port == "#" + digits;
    }
  }

  lemma PortSuffixShape(s: string) returns (rest: string)
    requires Ends(s, DigitOrDot)
    ensures s == PortSuffix(s) + rest && EndsAddress(PortSuffix(s), rest)
  {
    var port := PortSuffix(s);
    rest := s[|port|..];
    assert s == port + rest;
    if port != [] {
      var digits := Run(s[1..], Digit).value;
      assert s[1..] == digits.text + digits.rest;
      assert s == "#" + digits.text + digits.rest;
      assert rest == digits.rest;
    }
  }


  // ---------------------------------------------------------------------------------------
  // parse_line on each kind of line
  // ---------------------------------------------------------------------------------------

  /** The conversion `parse().ok()?` of a captured run of digits into a u64. */
  lemma ParseU64OfRun(s: string)
    requires IsRun(s, Digit)
    ensures ParseU64(s) == if DecimalValue(s) < U64_LIMIT then Some(DecimalValue(s) as u64) else None
  {
  }

  /** The conversion `parse().ok()?` of a captured run of digits into a u32. */
  lemma ParseU32OfRun(s: string)
    requires IsRun(s, Digit)
    ensures ParseU32(s) == if DecimalValue(s) < U32_LIMIT then Some(DecimalValue(s) as u32) else None
  {
  }

  /** A query line gives `Query` with exactly the captured pieces and the id read as a
   *  decimal number; when the id does not fit in a u64 or `from` is not an address the result
   *  is `None`, whatever later pattern the line might also match. */
  lemma ParseQueryLine(parseIp: string -> Option<IpAddr>, pid: string, id: string, source: string,
                       query: string, domain: string, from: string, rest: string)
    requires IsRun(pid, Digit) && IsRun(id, Digit) && IsRun(source, NonSpace)
    requires IsRun(query, Word) && IsRun(domain, DomainChar) && IsRun(from, NonSpace)
    requires Ends(rest, NonSpace)
    ensures ParseLine(parseIp, QueryLine(pid, id, source, query, domain, from, rest))
         == if DecimalValue(id) < U64_LIMIT && parseIp(from).Some?
            then Some(Query(DecimalValue(id) as u64, source, query, domain, parseIp(from).value))
            else None
  {
    LineMatches(QueryPattern, pid, [id, source, query, domain, from], rest);
    ParseU64OfRun(id);
  }

  /** The pattern of a reply line's own kind matches it, capturing id, domain and address. */
  lemma ReplyLineMatches(pid: string, id: string, source: string, cached: bool, domain: string,
                         ip: string, rest: string)
    requires IsRun(pid, Digit) && IsRun(id, Digit) && IsRun(source, NonSpace)
    requires IsRun(domain, DomainChar) && IsRun(ip, NonSpace) && Ends(rest, NonSpace)
    ensures var line := ReplyLine(pid, id, source, cached, domain, ip, rest);
      if cached then MatchAt(CachedReplyPattern, line) == Some(CachedCaptures(id, domain, ip))
      else MatchAt(ReplyPattern, line) == Some(ReplyCaptures(id, domain, ip))
  {
    LineMatches(if cached then CachedReplyPattern else ReplyPattern, pid, [id, source, domain, ip], rest);
  }

  /** A cached reply line gives `Reply` with `cached` set and the address, or `None` when the
   *  id does not fit or the token after `is` is not an address. */
  lemma ParseCachedLine(parseIp: string -> Option<IpAddr>, pid: string, id: string, source: string,
                        domain: string, ip: string, rest: string)
    requires IsRun(pid, Digit) && IsRun(id, Digit) && IsRun(source, NonSpace)
    requires IsRun(domain, DomainChar) && IsRun(ip, NonSpace) && Ends(rest, NonSpace)
    requires MarkerOnlyAtStart(ReplyLine(pid, id, source, true, domain, ip, rest))
    ensures ParseLine(parseIp, ReplyLine(pid, id, source, true, domain, ip, rest))
         == if DecimalValue(id) < U64_LIMIT && parseIp(ip).Some?
            then Some(Reply(DecimalValue(id) as u64, true, domain, Some(parseIp(ip).value)))
            else None
  {
    ParseLineAtStart(parseIp, ReplyLine(pid, id, source, true, domain, ip, rest));
    ReplyLineKeyword(pid, id, source, true, domain, ip, rest);
    ReplyLineMatches(pid, id, source, true, domain, ip, rest);
    ParseU64OfRun(id);
  }

  /** A plain reply line gives `Reply` with `cached` clear; its result is the parsed address
   *  when the token after `is` is one and `None` otherwise (a negative answer), and only an id
   *  that does not fit makes the whole line `None`. */
  lemma ParseReplyLine(parseIp: string -> Option<IpAddr>, pid: string, id: string, source: string,
                       domain: string, ip: string, rest: string)
    requires IsRun(pid, Digit) && IsRun(id, Digit) && IsRun(source, NonSpace)
    requires IsRun(domain, DomainChar) && IsRun(ip, NonSpace) && Ends(rest, NonSpace)
    requires MarkerOnlyAtStart(ReplyLine(pid, id, source, false, domain, ip, rest))
    ensures ParseLine(parseIp, ReplyLine(pid, id, source, false, domain, ip, rest))
         == if DecimalValue(id) < U64_LIMIT
            then Some(Reply(DecimalValue(id) as u64, false, domain, parseIp(ip)))
            else None
  {
    ParseLineAtStart(parseIp, ReplyLine(pid, id, source, false, domain, ip, rest));
    ReplyLineKeyword(pid, id, source, false, domain, ip, rest);
    ReplyLineMatches(pid, id, source, false, domain, ip, rest);
    ParseU64OfRun(id);
  }

  /** No pattern but the Started one can begin with the letter `s`. */
  lemma StartedOthersFail(pid: string, body: string)
    requires IsRun(pid, Digit) && body != [] && body[0] == 's'
    ensures MatchAt(QueryPattern, Prefixed(pid, body)).None?
      && MatchAt(CachedReplyPattern, Prefixed(pid, body)).None?
      && MatchAt(ReplyPattern, Prefixed(pid, body)).None?
      && MatchAt(ReadHostsPattern, Prefixed(pid, body)).None?
      && MatchAt(NameServerPattern, Prefixed(pid, body)).None?
  {
    FirstPieceFails(QueryPattern, pid, body);
    FirstPieceFails(CachedReplyPattern, pid, body);
    FirstPieceFails(ReplyPattern, pid, body);
    FirstPieceFails(ReadHostsPattern, pid, body);
    FirstPieceFails(NameServerPattern, pid, body);
  }

  /** Which patterns match at the start of a started banner. */
  lemma StartedLineMatches(pid: string, version: string, cacheSize: string, rest: string)
    requires IsRun(pid, Digit) && IsRun(version, DigitOrDot) && IsRun(cacheSize, Digit)
    requires Ends(rest, Digit)
    ensures var line := StartedLine(pid, version, cacheSize, rest);
      MatchAt(QueryPattern, line).None? && MatchAt(CachedReplyPattern, line).None?
      && MatchAt(ReplyPattern, line).None?
      && MatchAt(StartedPattern, line)
         == (if IsVersion(version) then Some(StartedCaptures(version, cacheSize)) else None)
      && MatchAt(ReadHostsPattern, line).None? && MatchAt(NameServerPattern, line).None?
  {
    LineMatches(StartedPattern, pid, [version, cacheSize], rest);
    var body := "started, version " + (version + (" cachesize " + (cacheSize + rest)));
    StartedLineText(pid, version, cacheSize, rest);
    StartedOthersFail(pid, body);
  }

  /** The started banner gives `Start` with the version verbatim and the cache size read as a
   *  decimal number; a malformed version or a cache size beyond u32 gives `None`. */
  lemma ParseStartedLine(parseIp: string -> Option<IpAddr>, pid: string, version: string,
                         cacheSize: string, rest: string)
    requires IsRun(pid, Digit) && IsRun(version, DigitOrDot) && IsRun(cacheSize, Digit)
    requires Ends(rest, Digit)
    requires MarkerOnlyAtStart(StartedLine(pid, version, cacheSize, rest))
    ensures ParseLine(parseIp, StartedLine(pid, version, cacheSize, rest))
         == if IsVersion(version) && DecimalValue(cacheSize) < U32_LIMIT
            then Some(Start(version, DecimalValue(cacheSize) as u32))
            else None
  {
    ParseLineAtStart(parseIp, StartedLine(pid, version, cacheSize, rest));
    StartedLineMatches(pid, version, cacheSize, rest);
    ParseU32OfRun(cacheSize);
  }

  /** No pattern but the ReadHosts one can begin with the letter `r`. */
  lemma ReadHostsOthersFail(pid: string, body: string)
    requires IsRun(pid, Digit) && body != [] && body[0] == 'r'
    ensures MatchAt(QueryPattern, Prefixed(pid, body)).None?
      && MatchAt(CachedReplyPattern, Prefixed(pid, body)).None?
      && MatchAt(ReplyPattern, Prefixed(pid, body)).None?
      && MatchAt(StartedPattern, Prefixed(pid, body)).None?
      && MatchAt(NameServerPattern, Prefixed(pid, body)).None?
  {
    FirstPieceFails(QueryPattern, pid, body);
    FirstPieceFails(CachedReplyPattern, pid, body);
    FirstPieceFails(ReplyPattern, pid, body);
    FirstPieceFails(StartedPattern, pid, body);
    FirstPieceFails(NameServerPattern, pid, body);
  }

  /** Which patterns match at the start of a hosts-file banner. */
  lemma ReadHostsLineMatches(pid: string, path: string, count: string, rest: string)
    requires IsRun(pid, Digit) && IsRun(path, NonSpace) && IsRun(count, Digit)
    ensures var line := ReadHostsLine(pid, path, count, rest);
      MatchAt(QueryPattern, line).None? && MatchAt(CachedReplyPattern, line).None?
      && MatchAt(ReplyPattern, line).None? && MatchAt(StartedPattern, line).None?
      && MatchAt(ReadHostsPattern, line)
         == (if IsHostsPath(path) then Some(ReadHostsCaptures(path, count)) else None)
      && MatchAt(NameServerPattern, line).None?
  {
    LineMatches(ReadHostsPattern, pid, [path, count], rest);
    var body := "read " + (path + (" - " + (count + (" addresses" + rest))));
    ReadHostsLineText(pid, path, count, rest);
    ReadHostsOthersFail(pid, body);
  }

  /** The hosts-file banner gives `ReadHosts` with the path verbatim and the count read as a
   *  decimal number, or `None` for a path the pattern refuses or a count beyond u32. */
  lemma ParseReadHostsLine(parseIp: string -> Option<IpAddr>, pid: string, path: string,
                           count: string, rest: string)
    requires IsRun(pid, Digit) && IsRun(path, NonSpace) && IsRun(count, Digit)
    requires MarkerOnlyAtStart(ReadHostsLine(pid, path, count, rest))
    ensures ParseLine(parseIp, ReadHostsLine(pid, path, count, rest))
         == if IsHostsPath(path) && DecimalValue(count) < U32_LIMIT
            then Some(ReadHosts(path, DecimalValue(count) as u32))
            else None
  {
    ParseLineAtStart(parseIp, ReadHostsLine(pid, path, count, rest));
    ReadHostsLineMatches(pid, path, count, rest);
    ParseU32OfRun(count);
  }

  /** No pattern but the NameServer one can begin with the letter `u`. */
  lemma NameServerOthersFail(pid: string, body: string)
    requires IsRun(pid, Digit) && body != [] && body[0] == 'u'
    ensures MatchAt(QueryPattern, Prefixed(pid, body)).None?
      && MatchAt(CachedReplyPattern, Prefixed(pid, body)).None?
      && MatchAt(ReplyPattern, Prefixed(pid, body)).None?
      && MatchAt(StartedPattern, Prefixed(pid, body)).None?
      && MatchAt(ReadHostsPattern, Prefixed(pid, body)).None?
  {
    FirstPieceFails(QueryPattern, pid, body);
    FirstPieceFails(CachedReplyPattern, pid, body);
    FirstPieceFails(ReplyPattern, pid, body);
    FirstPieceFails(StartedPattern, pid, body);
    FirstPieceFails(ReadHostsPattern, pid, body);
  }

  /** Which patterns match at the start of a nameserver banner. */
  lemma NameServerLineMatches(pid: string, address: string, port: string, rest: string)
    requires IsRun(pid, Digit) && IsRun(address, DigitOrDot)
    requires port == [] || IsPort(port)
    requires EndsAddress(port, rest)
    ensures var line := NameServerLine(pid, address, port, rest);
      MatchAt(QueryPattern, line).None? && MatchAt(CachedReplyPattern, line).None?
      && MatchAt(ReplyPattern, line).None? && MatchAt(StartedPattern, line).None?
      && MatchAt(ReadHostsPattern, line).None?
      && MatchAt(NameServerPattern, line) == Some(NameServerCaptures(address + port))
  {
    assert Ends(port + rest, DigitOrDot);
    LineMatches(NameServerPattern, pid, [address], port + rest);
    PortSuffixOf(port, rest);
    var body := "using nameserver " + (address + (port + rest));
    NameServerLineText(pid, address, port, rest);
    NameServerOthersFail(pid, body);
  }

  /** The nameserver banner gives `NameServer` holding the address with its port suffix
   *  verbatim. */
  lemma ParseNameServerLine(parseIp: string -> Option<IpAddr>, pid: string, address: string,
                            port: string, rest: string)
    requires IsRun(pid, Digit) && IsRun(address, DigitOrDot)
    requires port == [] || IsPort(port)
    requires EndsAddress(port, rest)
    requires MarkerOnlyAtStart(NameServerLine(pid, address, port, rest))
    ensures ParseLine(parseIp, NameServerLine(pid, address, port, rest)) == Some(NameServer(address + port))
  {
    ParseLineAtStart(parseIp, NameServerLine(pid, address, port, rest));
    NameServerLineMatches(pid, address, port, rest);
  }

  // ---------------------------------------------------------------------------------------
  // Priority
  // ---------------------------------------------------------------------------------------

  /** The first pattern in `Priority` that matches decides the result through its own
   *  conversion; when that conversion fails the result is `None` and no later pattern is
   *  tried. */
  lemma ParseLineFirstMatch(parseIp: string -> Option<IpAddr>, line: string, k: nat)
    requires k < |Priority|
    requires Find(Priority[k], line).Some?
    requires forall i :: 0 <= i < k ==> Find(Priority[i], line).None?
    ensures ParseLine(parseIp, line) == Convert(parseIp, Find(Priority[k], line).value)
  {
    if k > 0 { assert Find(Priority[0], line).None?; }
    if k > 1 { assert Find(Priority[1], line).None?; }
    if k > 2 { assert Find(Priority[2], line).None?; }
    if k > 3 { assert Find(Priority[3], line).None?; }
    if k > 4 { assert Find(Priority[4], line).None?; }
  }

  /** When the query pattern matches anywhere, the line is a `Query` or nothing. */
  lemma QueryPatternWins(parseIp: string -> Option<IpAddr>, line: string)
    requires Find(QueryPattern, line).Some?
    ensures ParseLine(parseIp, line).None? || ParseLine(parseIp, line).value.Query?
  {
    var j := FindIsLeftmost(QueryPattern, line);
    assert Find(QueryPattern, line).value.QueryCaptures?;
  }

  /** A line that matches none of the six patterns gives `None`. */
  lemma ParseLineUnrecognised(parseIp: string -> Option<IpAddr>, line: string)
    requires forall p :: Find(p, line).None?
    ensures ParseLine(parseIp, line).None?
  {
    assert Find(QueryPattern, line).None?;
    assert Find(CachedReplyPattern, line).None?;
    assert Find(ReplyPattern, line).None?;
    assert Find(StartedPattern, line).None?;
    assert Find(ReadHostsPattern, line).None?;
    assert Find(NameServerPattern, line).None?;
  }

  // ---------------------------------------------------------------------------------------
  // The lines of the unit test in src/line_parser.rs
  // ---------------------------------------------------------------------------------------

  /** The started banner of the unit test, spelled out as its fragments. */
  lemma StartedExampleLine()
    ensures StartedLine("23894", "2.80", "150", "")
         == "dnsmasq[" + ("23894" + ("]: " + ("started, version " + ("2.80" + (" cachesize " + "150")))))
    ensures MarkerOnlyAtStart(StartedLine("23894", "2.80", "150", ""))
  {
    StartedLineText("23894", "2.80", "150", "");
    assert "150" + "" == "150";
    assert '[' !in "23894" && '[' !in "]: " && '[' !in "2.80" && '[' !in "150";
    assert '[' !in "started, version " && '[' !in " cachesize ";
    MarkerOnlyAtStartOf("23894" + ("]: " + ("started, version " + ("2.80" + (" cachesize " + "150")))));
  }

  /** The unit test's line `dnsmasq[23894]: started, version 2.80 cachesize 150` gives version
   *  `2.80` and cache size 150. */
  lemma StartedExample(parseIp: string -> Option<IpAddr>)
    ensures ParseLine(parseIp, "dnsmasq[" + ("23894" + ("]: " + ("started, version " + ("2.80" + (" cachesize " + "150"))))))
         == Some(Start("2.80", 150))
  {
    StartedExampleLine();
    assert IsVersion("2.80") by {
      assert !DotsAt("2.80", 0) && !DotsAt("2.80", 1) && !DotsAt("2.80", 2);
    }
    assert DecimalValue("150") == 150 by {
      assert "150"[..2] == "15" && "15"[..1] == "1" && "1"[..0] == "";
    }
    ParseStartedLine(parseIp, "23894", "2.80", "150", "");
  }

  /** The nameserver banner of the unit test, spelled out as its fragments. */
  lemma NameServerExampleLine()
    ensures NameServerLine("25921", "172.17.0.1", "#53", "")
         == "dnsmasq[" + ("25921" + ("]: " + ("using nameserver " + ("172.17.0.1" + "#53"))))
    ensures MarkerOnlyAtStart(NameServerLine("25921", "172.17.0.1", "#53", ""))
  {
    NameServerLineText("25921", "172.17.0.1", "#53", "");
    assert "#53" + "" == "#53";
    assert '[' !in "25921" && '[' !in "]: " && '[' !in "172.17.0.1" && '[' !in "#53";
    assert '[' !in "using nameserver ";
    MarkerOnlyAtStartOf("25921" + ("]: " + ("using nameserver " + ("172.17.0.1" + "#53"))));
  }

  /** The unit test's line `dnsmasq[25921]: using nameserver 172.17.0.1#53` gives the server
   *  `172.17.0.1#53`. */
  lemma NameServerExample(parseIp: string -> Option<IpAddr>)
    ensures ParseLine(parseIp, "dnsmasq[" + ("25921" + ("]: " + ("using nameserver " + ("172.17.0.1" + "#53")))))
         == Some(NameServer("172.17.0.1" + "#53"))
  {
    NameServerExampleLine();
    ParseNameServerLine(parseIp, "25921", "172.17.0.1", "#53", "");
  }

  /** The fields of the query line of the unit test are runs of their classes. */
  lemma QueryExampleFields()
    ensures IsRun("525", Digit) && IsRun("1", Digit) && IsRun("127.0.0.1/42332", NonSpace)
    ensures IsRun("A", Word) && IsRun("www.matthiaskind.com", DomainChar) && IsRun("127.0.0.1", NonSpace)
    ensures DecimalValue("1") == 1
  {
    assert "1"[..0] == "";
  }

  /** The unit test's line
   *  `dnsmasq[525]: 1 127.0.0.1/42332 query[A] www.matthiaskind.com from 127.0.0.1`
   *  gives its fields; `localhost` stands for the address `IpAddr::from_str` reads from
   *  `127.0.0.1`. */
  lemma QueryExample(parseIp: string -> Option<IpAddr>, localhost: IpAddr)
    requires parseIp("127.0.0.1") == Some(localhost)
    ensures ParseLine(parseIp, "dnsmasq[" + ("525" + ("]: " + ("1" + (" " + ("127.0.0.1/42332" + (" query[" + ("A"
              + ("] " + ("www.matthiaskind.com" + (" from " + "127.0.0.1")))))))))))
         == Some(Query(1, "127.0.0.1/42332", "A", "www.matthiaskind.com", localhost))
  {
    QueryLineText("525", "1", "127.0.0.1/42332", "A", "www.matthiaskind.com", "127.0.0.1", "");
    assert "127.0.0.1" + "" == "127.0.0.1";
    QueryExampleFields();
    ParseQueryLine(parseIp, "525", "1", "127.0.0.1/42332", "A", "www.matthiaskind.com", "127.0.0.1", "");
  }
}
