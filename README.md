# dnsmasq-ctrl in Dafny

dnsmasq-ctrl runs dnsmasq in the foreground, reads its log from stderr line by line, and keeps
a picture of the running server: its version, cache size, upstream name servers, and the
queries it answers, with their outcomes. A small dashboard shows the counts it collects. This
project models and proves three sequential parts of that program.

- **Line classifier** (`line_parser.dfy`, module `LineParser`). This is `DnsmasqLineParser::parse_line`.
  - It tries six fixed patterns in a fixed order: query, cached reply, reply, started banner,
    hosts-file banner, nameserver banner.
  - The first pattern found anywhere in the line decides the result. If a field of that match
    then fails to convert, the result is `None`; later patterns are not tried.
  - Each pattern is written down as data: the common `dnsmasq[<pid>]: ` beginning, then a list
    of pieces. A piece is a literal or a capture group over one character class.
  - One interpreter matches those pieces. Every group in the six patterns is followed by the end
    of the pattern or by a literal that starts outside the group's class. So the regex engine's
    leftmost-first capture is the longest run of that class, and the interpreter takes exactly
    that run.
  - The unanchored search (`Find`) tries each offset of the line from the left.
- **Supervisor state** (`dnsmasq.dfy`, module `Dnsmasq`):
  - `CacheHitsRate`, a class whose `Hit`/`Miss` methods update the two counters in place.
  - `QueryState` and its integer encoding for the query table.
  - `DnsmasqStateEnum`.
  - `DnsmasqState`, a class: `Empty` builds it, and `Apply` is the body of the supervision
    loop for one parsed log line. `ProcessLines` runs the loop over a sequence of log lines.
  - Apply's calls to the query table are returned as a `QueryTableCall` value, not performed.
- **Dashboard helper** (`map_sort.dfy`, module `Frontend`). This is `mapSort`: a record's
  entries, stably sorted by descending count.

`wrappers.dfy` holds `Option` (whose `:-` behaves like Rust's `?`) and `Result`. `ints.dfy`
holds the fixed-width integer types.

## Model

| member | source | states |
|---|---|---|
| LineParser.Run | src/line_parser.rs:30-35 | A greedy group over a class fails exactly when the text does not start with that class. Otherwise it splits off a non-empty run that cannot be extended. |
| LineParser.RunOf | src/line_parser.rs:30-35 | A run of the class followed by a text that does not continue it is captured as exactly that run. |
| LineParser.SpanUnique | src/line_parser.rs:30-35 | The longest run is the only prefix of the class that cannot be extended. So the greedy choice is forced. |
| LineParser.Expect | src/line_parser.rs:30-35 | A literal matches exactly when the text starts with it; the rest is what follows it. |
| LineParser.MatchPrefix | src/line_parser.rs:30-35 | Matching the common `dnsmasq[<digits>]: ` beginning succeeds only on text that starts with `dnsmasq[`. |
| LineParser.MatchPieces | src/line_parser.rs:30-35 | A successful match captures one text per group of the pattern. |
| LineParser.Tail | src/line_parser.rs:30-35 | The six regular expressions after their common beginning. This definition has no contract of its own: `TailFacts` states the group classes and the separating literals, and `LineMatches`/`LineShape` state the lines each one matches. |
| LineParser.MatchPiecesOf | src/line_parser.rs:30-35 | Take text built from a pattern's pieces, with each group a run of its class, followed by a rest that does not continue the last group. The pattern matches it, capturing exactly those group texts and that rest. |
| LineParser.MatchPiecesShape | src/line_parser.rs:30-35 | Conversely, whatever matches is such a text: its group texts are runs of their classes and the rest does not continue the last group. |
| LineParser.TailFacts | src/line_parser.rs:30-35 | Each pattern's groups have the listed classes. Each group is followed by the end of the pattern or by a literal that starts outside its class. |
| LineParser.PortSuffix | src/line_parser.rs:31 | The optional `#port` of a nameserver address is a prefix of what follows the address. It is empty exactly when no `#` and digit follow, and otherwise it is `#` plus the digit run. |
| LineParser.Build | src/line_parser.rs:30-35 | Each pattern yields captures of its own kind. The version group must be runs of digits joined by single dots, possibly with one dot at the end, and the path group must start with `/` and be at least two characters long. |
| LineParser.MatchAt | src/line_parser.rs:30-35 | A match at the start of a text needs the `dnsmasq[` marker there, and it yields captures of the pattern's own kind. |
| LineParser.Find | src/line_parser.rs:42 | `Regex::captures`, the unanchored search. This definition has no contract of its own: `FindIsLeftmost` and `FindNoneIff` state that it finds the match at the leftmost matching offset and fails exactly when no offset matches. |
| LineParser.LineMatches | src/line_parser.rs:30-35 | A line of the shape a pattern describes is matched at its start as `Build` says for the groups the line was built from. So a started or hosts-file line whose version or path lacks the inner shape gives `None`, and every other line gives captures made of exactly those groups (the nameserver address also takes its `#port` from the rest). |
| LineParser.LineShape | src/line_parser.rs:30-35 | Every text a pattern matches at its start is a line of that shape, with the captured groups and rest. |
| LineParser.FindIsLeftmost | src/line_parser.rs:42 | `captures` returns the match at the smallest offset where the pattern matches, and there is no match at any earlier offset. |
| LineParser.FindNoneIff | src/line_parser.rs:42 | `captures` fails exactly when the pattern matches at no offset of the line. |
| LineParser.FindAtStart | src/line_parser.rs:42 | On a line that holds `dnsmasq[` only at its start, the search for any pattern is the match at the start. |
| LineParser.MarkerOnlyAtStartOf | src/line_parser.rs:30-35 | A line whose only `[` is the one in its leading `dnsmasq[` holds the marker only at its start. |
| LineParser.ParseLineAtStart | src/line_parser.rs:39-111 | On such a line, `parse_line` is the priority chain applied to the matches at the start. |
| LineParser.ParseUnsigned | src/line_parser.rs:43 | `str::parse` succeeds on a digit run exactly when its decimal value fits the type, and then gives that value. |
| LineParser.ParseU64 | src/line_parser.rs:43 | `str::parse::<u64>` followed by `.ok()`. This definition has no contract of its own: `ParseU64OfRun` states its result on digit runs, and `ParseU64OfDecimal` states the round trip. |
| LineParser.ParseU32 | src/line_parser.rs:91 | `str::parse::<u32>` followed by `.ok()`. This definition has no contract of its own: `ParseU32OfRun` states its result on digit runs. |
| LineParser.ParseU64OfRun | src/line_parser.rs:43 | On a digit run, parsing as `u64` gives the decimal value when it is below 2^64 and `None` otherwise. |
| LineParser.ParseU32OfRun | src/line_parser.rs:91 | On a digit run, parsing as `u32` gives the decimal value when it is below 2^32 and `None` otherwise. |
| LineParser.ParseU64OfDecimal | src/line_parser.rs:43 | Parsing the decimal numeral of any `u64` gives that number back. |
| LineParser.Convert | src/line_parser.rs:42-107 | Each capture kind converts to its own line variant. Query: fails exactly when the id does not fit `u64` or `from` is not an address. Cached reply: the same for the id and `ip`. Plain reply: fails only on the id. Started and hosts banners: fail exactly when the count does not fit `u32`. Nameserver: always succeeds. |
| LineParser.Decide | src/line_parser.rs:39-111 | The `if let` chain of `parse_line`: the first pattern with captures decides the result through its conversion. This definition has no contract of its own: `ParseLineFirstMatch` states this for every position in the priority order, and `ParseLineUnrecognised` states the final `None`. |
| LineParser.ParseLine | src/line_parser.rs:39-111 | `parse_line` itself. This definition has no contract of its own. `ParseLineFirstMatch`, `QueryPatternWins` and `ParseLineUnrecognised` state the priority order in general. `ParseQueryLine`, `ParseCachedLine`, `ParseReplyLine`, `ParseStartedLine`, `ParseReadHostsLine` and `ParseNameServerLine` state its result on each kind of line. |
| LineParser.ParseQueryLine | src/line_parser.rs:42-56 | A query line gives `Query` with the captured source, query type and domain, the id read as a decimal number and the parsed `from` address. It gives `None` when the id does not fit `u64` or `from` is not an address. |
| LineParser.ReplyLineNotQuery | src/line_parser.rs:33-35 | A cached or plain reply line does not match the query pattern at its start. Its keyword stands where the query pattern expects the literal ` query[`. A match further along the line is not excluded. |
| LineParser.PlainLineNotCached | src/line_parser.rs:34-35 | A plain reply line does not match the cached-reply pattern at its start, because ` reply ` stands where that pattern expects ` cached `. |
| LineParser.ReplyLineKeyword | src/line_parser.rs:33-35 | At the start of a reply line the query pattern does not match, and at the start of a plain reply line the cached-reply pattern does not match. |
| LineParser.ReplyLineMatches | src/line_parser.rs:34-35 | A reply pattern matches a line of its own kind, capturing the id, domain and address token. |
| LineParser.ParseCachedLine | src/line_parser.rs:58-69 | A cached reply gives `Reply` with `cached` set, the captured domain, the decimal id and `Some` of the address. It gives `None` when the id does not fit or the token is not an address. |
| LineParser.ParseReplyLine | src/line_parser.rs:71-82 | A plain reply gives `Reply` with `cached` clear. Its result is the parsed token, which is `None` for a non-address. Only an id that does not fit makes the whole line `None`. |
| LineParser.StartedOthersFail | src/line_parser.rs:30-35 | The other five patterns fail at the start of text that begins, after the common beginning, with the started-banner wording. A match further along the text is not excluded. |
| LineParser.StartedLineMatches | src/line_parser.rs:30-35 | At the start of a started banner, only the started pattern matches. It matches only when the version is runs of digits joined by single dots, possibly with one dot at the end. |
| LineParser.ParseStartedLine | src/line_parser.rs:89-94 | A started banner gives `Start` with the version verbatim and the cache size read as a decimal number. It gives `None` for a malformed version or a size beyond `u32`. |
| LineParser.ReadHostsOthersFail | src/line_parser.rs:30-35 | The other five patterns fail at the start of text that begins, after the common beginning, with the hosts-file wording. A match further along the text is not excluded. |
| LineParser.ReadHostsLineMatches | src/line_parser.rs:30-35 | At the start of a hosts-file banner, only the hosts pattern matches, and only for a path of the pattern's shape. |
| LineParser.ParseReadHostsLine | src/line_parser.rs:96-101 | A hosts-file banner gives `ReadHosts` with the path verbatim and the count read as a decimal number. It gives `None` for a path that is not `/` followed by at least one character, or for a count beyond `u32`. |
| LineParser.NameServerOthersFail | src/line_parser.rs:30-35 | The other five patterns fail at the start of text that begins, after the common beginning, with the nameserver wording. A match further along the text is not excluded. |
| LineParser.NameServerLineMatches | src/line_parser.rs:30-35 | At the start of a nameserver banner, only the nameserver pattern matches, capturing the address with its port suffix. |
| LineParser.ParseNameServerLine | src/line_parser.rs:103-107 | A nameserver banner gives `NameServer` holding the address and its `#port` suffix verbatim. |
| LineParser.ParseLineFirstMatch | src/line_parser.rs:39-111 | The first pattern in priority order that is found decides the result through its own conversion, even when that conversion fails. |
| LineParser.QueryPatternWins | src/line_parser.rs:42-56 | When the query pattern is found anywhere in the line, the result is a `Query` or `None`. |
| LineParser.ParseLineUnrecognised | src/line_parser.rs:110 | A line that no pattern matches gives `None`. |
| LineParser.StartedExample | src/line_parser.rs:123-129 | The test's started banner gives version `2.80` and cache size 150. |
| LineParser.NameServerExample | src/line_parser.rs:131-136 | The test's nameserver banner gives `172.17.0.1#53`. |
| LineParser.QueryExample | src/line_parser.rs:139-148 | The test's query line gives id 1, source `127.0.0.1/42332`, type `A`, domain `www.matthiaskind.com` and the address of `127.0.0.1`. |
| Dnsmasq.Record | src/dnsmasq.rs:23-30 | One request adds 1 to the total, and adds 1 to the hits only when it is a hit. |
| Dnsmasq.Replay | src/dnsmasq.rs:23-30 | A sequence of `hit` and `miss` calls. This definition has no contract of its own: `ReplayCounts` and `ReplayKeepsBound` state what it leaves in the counters. |
| Dnsmasq.CacheHitsRate.constructor | src/dnsmasq.rs:12-16 | The default counters are both 0, and the hits do not exceed the total. |
| Dnsmasq.CacheHitsRate.Hit | src/dnsmasq.rs:23-26 | `hit` adds 1 to both counters and keeps hits at most the total. |
| Dnsmasq.CacheHitsRate.Miss | src/dnsmasq.rs:28-30 | `miss` adds 1 to the total only, leaves the hits unchanged, and keeps hits at most the total. |
| Dnsmasq.ReplayCounts | src/dnsmasq.rs:12-30 | From the default, any order of h hits and m misses leaves `hits == h` and `total_reqs == h + m`. |
| Dnsmasq.ReplayKeepsBound | src/dnsmasq.rs:23-30 | From counters where hits are at most the total, no sequence of calls lets the hits exceed the total. |
| Dnsmasq.ToSql | src/dnsmasq.rs:52-63 | The encoding of an outcome is a `u8` below 4. |
| Dnsmasq.FromSql | src/dnsmasq.rs:65-77 | Decoding succeeds exactly on 0 to 3, and the outcome it gives encodes back to that integer. Every other integer gives the `InvalidType` error. |
| Dnsmasq.SqlRoundTrip | src/dnsmasq.rs:52-77 | Decoding an encoded outcome gives it back. No two outcomes share a code. |
| Dnsmasq.ReplyState | src/dnsmasq.rs:255-264 | A reply's outcome is never RUNNING. It is NX exactly when there is no address, whatever `cached` says. Otherwise it is HIT exactly when the reply is cached and MISS exactly when it is not. |
| Dnsmasq.Step | src/dnsmasq.rs:233-271 | A started banner sets version, cache size and `Active`, keeping the server list. A nameserver banner appends its server at the end, keeping earlier entries and repeats. Hosts-file, query, reply and unrecognised lines leave every field unchanged. The address table never changes. |
| Dnsmasq.TableCall | src/dnsmasq.rs:248-267 | Only query and reply lines reach the query table. A reply never finishes a query as RUNNING. |
| Dnsmasq.Fold | src/dnsmasq.rs:230-272 | The supervision loop's effect on the state fields. This definition has no contract of its own: `FoldServers`, `FoldLifecycle`, `FoldConsistent` and `FoldFromEmpty` state the state it produces, and `ProcessLines` is proved equal to it. |
| Dnsmasq.Calls | src/dnsmasq.rs:248-267 | The query-table calls the loop makes, in order. This definition has no contract of its own: `CallsCount` bounds them and ties each one to a line, and `ProcessLines` is proved to return it. |
| Dnsmasq.ParseAll | src/dnsmasq.rs:230-233 | Each log line run through `parse_line`, one result per line. `ParseAllAt` states that the i-th result is the parse of the i-th line. |
| Dnsmasq.DnsmasqState.Empty | src/dnsmasq.rs:80-95 | A fresh state is `Uninited`, with no version and no cache size, no servers and no addresses. |
| Dnsmasq.DnsmasqState.Apply | src/dnsmasq.rs:233-271 | Handling a parsed line changes the fields as `Step` says. It returns the query-table call `TableCall` names. |
| Dnsmasq.DnsmasqState.ProcessLines | src/dnsmasq.rs:230-272 | The loop handles every log line in order: it parses each one and applies it. The result is the fold of `Step` and the sequence of calls made. |
| Dnsmasq.ParseAllAt | src/dnsmasq.rs:230-233 | The loop handles each log line exactly as `parse_line` classifies it. |
| Dnsmasq.LastStart | src/dnsmasq.rs:234-239 | The result is a started banner among the lines, and it is `None` exactly when no line is a started banner. |
| Dnsmasq.LastStartIsLast | src/dnsmasq.rs:234-239 | The banner returned stands at an index after which no started banner follows, so it is the last one. |
| Dnsmasq.FoldServers | src/dnsmasq.rs:240-243 | After any lines, the server list is the old list followed by the announced servers, in order and with repeats. The address table is unchanged. |
| Dnsmasq.FoldLifecycle | src/dnsmasq.rs:234-239 | Version, cache size and `Active` come from the last started banner. With no banner they are as before. |
| Dnsmasq.FoldConsistent | src/dnsmasq.rs:233-247 | Version and cache size are known together, and only once the process is active. Every sequence of lines keeps this. |
| Dnsmasq.FoldFromEmpty | src/dnsmasq.rs:87-94 | From `empty()`, the process is active exactly when a started banner was seen. The server list is exactly the announced servers. |
| Dnsmasq.CallsCount | src/dnsmasq.rs:248-267 | There are at most as many query-table calls as lines, and each call comes from one of the lines. |
| Dnsmasq.CallsLength | src/dnsmasq.rs:248-267 | There is exactly one query-table call per query or reply line, and none for any other line. |
| Frontend.Insert | frontend/src/main.ts:22 | Inserting an entry adds exactly that entry. |
| Frontend.InsertSorted | frontend/src/main.ts:22 | Inserting into a list sorted by descending count keeps it sorted. |
| Frontend.MapSort | frontend/src/main.ts:21-23 | The result is a permutation of the record's entries, ordered by count from largest to smallest. |
| Frontend.InsertStable | frontend/src/main.ts:22 | Insertion keeps the order among entries of equal count, with the inserted entry first. |
| Frontend.MapSortStable | frontend/src/main.ts:22 | For every count, the entries with that count come out in the order in which the record lists them. |
| Frontend.MapSortEntries | frontend/src/main.ts:21-22 | There is one output entry per key of the record, and each output entry carries the record's count for its key. |
| Frontend.MapSortEmpty | frontend/src/main.ts:21-22 | An empty record gives an empty list. |

## Left out

- LineParser.ParseCachedLine, LineParser.ParseReplyLine, LineParser.ParseStartedLine, LineParser.ParseReadHostsLine and LineParser.ParseNameServerLine are stated only for lines that hold `dnsmasq[` at their start and nowhere else (`MarkerOnlyAtStart`). Otherwise, a pattern earlier in the priority order could match a second marker further along the line. `ParseLineFirstMatch` covers that case in general.
- IsDigit, IsWordChar: the regex crate's `\d` and `\w` are Unicode classes. Here they are ASCII digits and ASCII letters, digits and `_`. So a line with non-ASCII digits or letters in a group is not modelled as the regex would read it. `\S` does use the full Unicode White_Space set.
- `IpAddr::from_str` is not modelled. `ParseLine` takes it as the parameter `parseIp`, a function from the token to an address or nothing.
- The `eprintln!` diagnostics for hosts-file banners and unrecognised lines (src/dnsmasq.rs:246, 269) are not modelled. They are output only, and `Apply` leaves the state unchanged for both kinds of line.
- `PathBuf::from` keeps the path as the string it was built from.
- Dnsmasq.CacheHitsRate.Hit, Dnsmasq.CacheHitsRate.Miss: the counters are unbounded. The `u64` overflow after 2^64 requests is not modelled: a panic in debug builds, wrap-around in release builds.
- `CacheHitsRate::get_ratio` is floating-point division, which gives NaN at 0/0. Not modelled.
- Dnsmasq.FromSql takes the integer of the column. The `as_i64` failure for a column that holds no integer is not modelled.
- The SQLite query table is not modelled: the connection, the `CREATE TABLE`, `start_query` and `finish_query` (src/dnsmasq.rs:82-85, 97-129). They are foreign-library calls. `Apply` returns the call it would make, and its query and reply branches leave the fields unchanged.
- Process supervision and I/O are not modelled: the `DNSMASQ_PORT` variable, spawning dnsmasq, the ctrl-c handler, reading and echoing stderr lines (src/dnsmasq.rs:174-231). `ProcessLines` takes the lines as a sequence. Setting `Error` when the spawn fails (src/dnsmasq.rs:201) happens before the loop; `StateEnum` has the variant, but no modelled operation sets it.
- `Arc<Mutex<_>>`, the command channel, `tokio::spawn` and the controller (src/dnsmasq.rs:139-172) are not modelled; `Apply` is a plain sequential method.
- src/main.rs is an older prototype server, and src/responses.rs is serde response structs. Neither is part of this model.
- The rest of frontend/src/main.ts is not modelled: `renderList`, `main`, the fetch calls and the width computation. frontend/vite.config.ts is not part of this model.
- Frontend.MapSort takes the record as its list of entries in enumeration order. The rule that `Object.entries` lists integer-like keys first, in ascending order, is not modelled. Counts are integers: fractional and NaN values of JavaScript numbers are not modelled.
