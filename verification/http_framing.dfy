/**
 Reading one HTTP request off a socket (engine/src/claude_channel_server.rs, `read_http_request` and
 `find_header_end`).

 A client's bytes arrive in reads of at most 4096, cut anywhere, until the stream ends or fails. The
 lemmas compare what the server makes of the reads with what the bytes alone say (section 6.2 of
 RFC 9112: the body is the Content-Length octets after the head).
 */
module HttpFraming {
  import opened Wrappers
  import opened Decimals

  const MAX_BYTES: nat := 1024 * 1024
  const READ_SIZE: nat := 4096
  const USIZE_LIMIT: nat := 0x1_0000_0000_0000_0000

  /** A parsed head; keys are lower-case and both halves of a header are trimmed. */
  datatype Head = Head(verb: string, path: string, headers: seq<(string, string)>)

  /** Parsing of the head's text: `None` when there is no request line. */
  type Parser = Bytes -> Option<Head>

  datatype Outcome = Request(head: Head, body: Bytes) | Refused(status: nat)

  // ---------------------------------------------------------------------------------------------
  // The head
  // ---------------------------------------------------------------------------------------------

  predicate BlankLineAt(raw: Bytes, i: nat) {
    i + 4 <= |raw| && raw[i] == 13 && raw[i + 1] == 10 && raw[i + 2] == 13 && raw[i + 3] == 10
  }

  function FindFrom(raw: Bytes, i: nat): (r: Option<nat>)
    requires i <= |raw|
    ensures r.Some? ==> i <= r.value && BlankLineAt(raw, r.value)
    ensures forall k: nat | i <= k && (r.None? || k < r.value) :: !BlankLineAt(raw, k)
    decreases |raw| - i
  {
    if BlankLineAt(raw, i) then Some(i)
    else if i == |raw| then None
    else FindFrom(raw, i + 1)
  }

  function FindHeaderEnd(raw: Bytes): Option<nat> {
    FindFrom(raw, 0)
  }

  /** A prefix has the same header end, once it is long enough to have one. */
  lemma HeaderEndOfPrefix(whole: Bytes, n: nat)
    requires n <= |whole|
    ensures FindHeaderEnd(whole[..n])
         == if FindHeaderEnd(whole).Some? && FindHeaderEnd(whole).value + 4 <= n then FindHeaderEnd(whole) else None
  {
    assert forall k: nat :: BlankLineAt(whole[..n], k) <==> BlankLineAt(whole, k) && k + 4 <= n;
  }

  method ScanHeaderEnd(raw: Bytes) returns (r: Option<nat>)
    ensures r == FindHeaderEnd(raw)
  {
    var i := 0;
    while i + 4 <= |raw|
      invariant 0 <= i <= |raw|
      invariant forall k: nat | k < i :: !BlankLineAt(raw, k)
    {
      if BlankLineAt(raw, i) {
        return Some(i);
      }
      i := i + 1;
    }
    return None;
  }

  /** `str::parse::<usize>`: an optional plus sign, digits, and no overflow. */
  function ParseUsize(text: string): Option<nat> {
    var digits := if |text| > 1 && text[0] == '+' then text[1..] else text;
    if AllDigits(digits) && DigitsValue(digits) < USIZE_LIMIT then Some(DigitsValue(digits)) else None
  }

  function Find(headers: seq<(string, string)>, key: string): Option<string> {
    if headers == [] then None
    else if headers[0].0 == key then Some(headers[0].1)
    else Find(headers[1..], key)
  }

  /** The first Content-Length decides; one that does not parse counts as zero. */
  function ContentLength(head: Head): nat {
    var value := Find(head.headers, "content-length");
    if value.Some? then GetOr(ParseUsize(value.value), 0) else 0
  }

  // ---------------------------------------------------------------------------------------------
  // What the bytes say
  // ---------------------------------------------------------------------------------------------

  /** The verdict on a head before its body is read. */
  function HeadVerdict(text: Bytes, parse: Parser): (Option<Head>, nat) {
    var head := parse(text);
    if head.None? || head.value.verb == "" || head.value.path == "" then (None, 400)
    else if ContentLength(head.value) > MAX_BYTES then (None, 413)
    else (head, 200)
  }

  /** The request at the start of a byte stream whose head ends at `h`. */
  function AfterHead(all: Bytes, h: nat, parse: Parser): Outcome
    requires h + 4 <= |all|
  {
    var (head, status) := HeadVerdict(all[..h], parse);
    if head.None? then Refused(status)
    else
      var end := h + 4 + ContentLength(head.value);
      if |all| < end then Refused(400) else Request(head.value, all[h + 4..end])
  }

  /** The outcome for a stream, from its bytes alone. */
  function Frame(all: Bytes, parse: Parser): Outcome {
    var h := FindHeaderEnd(all);
    if h.None? then Refused(if |all| > MAX_BYTES then 413 else 400)
    else if h.value + 4 > MAX_BYTES then Refused(413)
    else AfterHead(all, h.value, parse)
  }

  // ---------------------------------------------------------------------------------------------
  // What the server does with reads
  // ---------------------------------------------------------------------------------------------

  predicate ValidReads(chunks: seq<Bytes>) {
    forall r | r in chunks :: 1 <= |r| <= READ_SIZE
  }

  function Join(chunks: seq<Bytes>): Bytes {
    if chunks == [] then [] else chunks[0] + Join(chunks[1..])
  }

  function ReadBody(raw: Bytes, chunks: seq<Bytes>, start: nat, length: nat, head: Head): Outcome
    requires start <= |raw|
    decreases |chunks|
  {
    if |raw| >= start + length then Request(head, raw[start..start + length])
    else if chunks == [] then Refused(400)
    else ReadBody(raw + chunks[0], chunks[1..], start, length, head)
  }

  function WithHead(raw: Bytes, chunks: seq<Bytes>, h: nat, parse: Parser): Outcome
    requires h + 4 <= |raw|
  {
    var (head, status) := HeadVerdict(raw[..h], parse);
    if head.None? then Refused(status)
    else ReadBody(raw, chunks, h + 4, ContentLength(head.value), head.value)
  }

  function ReadHead(raw: Bytes, chunks: seq<Bytes>, parse: Parser): Outcome
    decreases |chunks|
  {
    if chunks == [] then Refused(400)
    else
      var raw' := raw + chunks[0];
      if |raw'| > MAX_BYTES then Refused(413)
      else
        var h := FindHeaderEnd(raw');
        if h.Some? then WithHead(raw', chunks[1..], h.value, parse)
        else ReadHead(raw', chunks[1..], parse)
  }

  function Serve(chunks: seq<Bytes>, parse: Parser): Outcome {
    ReadHead([], chunks, parse)
  }

  method ReadHttpRequest(chunks: seq<Bytes>, parse: Parser) returns (outcome: Outcome)
    ensures outcome == Serve(chunks, parse)
  {
    var raw: Bytes := [];
    var next := 0;
    var h: Option<nat> := None;
    hide FindHeaderEnd;
    while h.None?
      invariant 0 <= next <= |chunks|
      invariant h.None? ==> Serve(chunks, parse) == ReadHead(raw, chunks[next..], parse)
      invariant h.Some? ==> h.value + 4 <= |raw|
      invariant h.Some? ==> Serve(chunks, parse) == WithHead(raw, chunks[next..], h.value, parse)
      decreases |chunks| - next, h.None?
    {
      if next == |chunks| {
        return Refused(400);
      }
      assert chunks[next..][1..] == chunks[next + 1..];
      raw := raw + chunks[next];
      next := next + 1;
      if |raw| > MAX_BYTES {
        return Refused(413);
      }
      h := ScanHeaderEnd(raw);
      FoundFits(raw);
    }
    var head := parse(raw[..h.value]);
    if head.None? || head.value.verb == "" || head.value.path == "" {
      return Refused(400);
    }
    var length := ContentLength(head.value);
    if length > MAX_BYTES {
      return Refused(413);
    }
    var start := h.value + 4;
    while |raw| < start + length
      invariant 0 <= next <= |chunks| && start <= |raw|
      invariant Serve(chunks, parse) == ReadBody(raw, chunks[next..], start, length, head.value)
      decreases |chunks| - next
    {
      if next == |chunks| {
        return Refused(400);
      }
      assert chunks[next..][1..] == chunks[next + 1..];
      raw := raw + chunks[next];
      next := next + 1;
    }
    return Request(head.value, raw[start..start + length]);
  }

  lemma FoundFits(raw: Bytes)
    ensures FindHeaderEnd(raw).Some? ==> FindHeaderEnd(raw).value + 4 <= |raw|
  {
  }

  // ---------------------------------------------------------------------------------------------
  // Fragmentation
  // ---------------------------------------------------------------------------------------------

  lemma {:induction false} BodyIgnoresCuts(raw: Bytes, chunks: seq<Bytes>, start: nat, length: nat, head: Head)
    requires start <= |raw|
    ensures var all := raw + Join(chunks);
      ReadBody(raw, chunks, start, length, head)
        == if |all| < start + length then Refused(400) else Request(head, all[start..start + length])
    decreases |chunks|
  {
    var all := raw + Join(chunks);
    if |raw| >= start + length {
      assert raw[start..start + length] == all[start..start + length];
    } else if chunks != [] {
      assert all == (raw + chunks[0]) + Join(chunks[1..]);
      BodyIgnoresCuts(raw + chunks[0], chunks[1..], start, length, head);
    } else {
      assert all == raw;
    }
  }

  /** Once the head is complete, the rest of the outcome does not depend on the cuts. */
  lemma HeadFixesOutcome(raw: Bytes, chunks: seq<Bytes>, h: nat, parse: Parser)
    requires h + 4 <= |raw|
    ensures WithHead(raw, chunks, h, parse) == AfterHead(raw + Join(chunks), h, parse)
  {
    assert (raw + Join(chunks))[..h] == raw[..h];
    var (head, _) := HeadVerdict(raw[..h], parse);
    if head.Some? {
      BodyIgnoresCuts(raw, chunks, h + 4, ContentLength(head.value), head.value);
    }
  }

  /**
   The window in which the server's answer depends on the network: a head that fits the limit, more
   bytes after it, and a single read that can run from inside the head past the limit.
   */
  predicate Ambiguous(all: Bytes, parse: Parser) {
    var h := FindHeaderEnd(all);
    && h.Some?
    && h.value + 4 <= MAX_BYTES < |all|
    && MAX_BYTES < h.value + 3 + READ_SIZE
    && AfterHead(all, h.value, parse) != Refused(413)
  }

  /** Outside that window, however the stream is cut, the outcome is the one its bytes determine. */
  lemma {:induction false} CutsDoNotMatter(raw: Bytes, chunks: seq<Bytes>, parse: Parser)
    requires ValidReads(chunks) && |raw| <= MAX_BYTES && FindHeaderEnd(raw).None?
    requires !Ambiguous(raw + Join(chunks), parse)
    ensures ReadHead(raw, chunks, parse) == Frame(raw + Join(chunks), parse)
    decreases |chunks|
  {
    var all := raw + Join(chunks);
    if chunks == [] {
      assert all == raw;
    } else {
      var raw' := raw + chunks[0];
      assert all == raw' + Join(chunks[1..]);
      assert all[..|raw|] == raw && all[..|raw'|] == raw';
      HeaderEndOfPrefix(all, |raw|);
      HeaderEndOfPrefix(all, |raw'|);
      if |raw'| <= MAX_BYTES {
        if FindHeaderEnd(raw').Some? {
          HeadFixesOutcome(raw', chunks[1..], FindHeaderEnd(raw').value, parse);
        } else {
          CutsDoNotMatter(raw', chunks[1..], parse);
        }
      } else {
        assert |chunks[0]| <= READ_SIZE;
      }
    }
  }

  /** Up to 1 MiB, every fragmentation of a stream gets the same answer. */
  lemma FragmentationIndependent(chunks: seq<Bytes>, parse: Parser)
    requires ValidReads(chunks) && |Join(chunks)| <= MAX_BYTES
    ensures Serve(chunks, parse) == Frame(Join(chunks), parse)
  {
    assert [] + Join(chunks) == Join(chunks);
    CutsDoNotMatter([], chunks, parse);
  }

  // ---------------------------------------------------------------------------------------------
  // Exactly
  // ---------------------------------------------------------------------------------------------

  /** Reads as full as they can be. */
  function Cut(bytes: Bytes): (chunks: seq<Bytes>)
    ensures ValidReads(chunks) && Join(chunks) == bytes
    decreases |bytes|
  {
    if bytes == [] then []
    else if |bytes| <= READ_SIZE then
      assert Join([bytes]) == bytes;
      [bytes]
    else [bytes[..READ_SIZE]] + Cut(bytes[READ_SIZE..])
  }

  lemma {:induction false} JoinAppend(a: seq<Bytes>, b: seq<Bytes>)
    ensures Join(a + b) == Join(a) + Join(b)
  {
    if a == [] {
      assert a + b == b;
    } else {
      JoinAppend(a[1..], b);
      assert (a + b)[1..] == a[1..] + b;
      assert Join(a + b) == a[0] + Join(a[1..] + b);
    }
  }

  /** Reads that end before the head does only fill the buffer. */
  lemma {:induction false} EarlyReadsOnlyFill(raw: Bytes, early: seq<Bytes>, rest: seq<Bytes>, parse: Parser)
    requires |raw + Join(early)| <= MAX_BYTES && FindHeaderEnd(raw + Join(early)).None?
    ensures ReadHead(raw, early + rest, parse) == ReadHead(raw + Join(early), rest, parse)
    decreases |early|
  {
    if early == [] {
      assert early + rest == rest && raw + Join(early) == raw;
    } else {
      var raw' := raw + early[0];
      var all := raw + Join(early);
      assert all == raw' + Join(early[1..]);
      assert all[..|raw'|] == raw';
      HeaderEndOfPrefix(all, |raw'|);
      assert (early + rest)[1..] == early[1..] + rest;
      EarlyReadsOnlyFill(raw', early[1..], rest, parse);
    }
  }

  /** A read that completes the head at exactly `n` bytes. */
  lemma CompletingRead(all: Bytes, n: nat, parse: Parser) returns (chunks: seq<Bytes>)
    requires var h := FindHeaderEnd(all); h.Some? && h.value + 4 <= n <= |all| && n <= h.value + 3 + READ_SIZE
    requires FindHeaderEnd(all).value + 4 <= MAX_BYTES
    ensures ValidReads(chunks) && Join(chunks) == all
    ensures Serve(chunks, parse)
         == if n > MAX_BYTES then Refused(413) else AfterHead(all, FindHeaderEnd(all).value, parse)
  {
    var h := FindHeaderEnd(all).value;
    var early, read, late := Cut(all[..h + 3]), all[h + 3..n], Cut(all[n..]);
    chunks := early + ([read] + late);
    PiecesJoin(all, h + 3, n, early, late);
    HeaderEndOfPrefix(all, h + 3);
    HeaderEndOfPrefix(all, n);
    hide FindHeaderEnd, Cut, ReadHead, Frame, AfterHead, WithHead;
    assert [] + Join(early) == all[..h + 3];
    EarlyReadsOnlyFill([], early, [read] + late, parse);
    LastRead(all, h, n, late, parse);
  }

  lemma PiecesJoin(all: Bytes, m: nat, n: nat, early: seq<Bytes>, late: seq<Bytes>)
    requires m <= n <= |all| && Join(early) == all[..m] && Join(late) == all[n..]
    ensures Join(early + ([all[m..n]] + late)) == all
  {
    JoinAppend([all[m..n]], late);
    JoinAppend(early, [all[m..n]] + late);
    assert Join([all[m..n]]) == all[m..n];
    assert all[..m] + (all[m..n] + all[n..]) == all;
  }

  lemma LastRead(all: Bytes, h: nat, n: nat, late: seq<Bytes>, parse: Parser)
    requires h + 4 <= n <= |all| && Join(late) == all[n..] && FindHeaderEnd(all[..n]) == Some(h)
    ensures ReadHead(all[..h + 3], [all[h + 3..n]] + late, parse)
         == if n > MAX_BYTES then Refused(413) else AfterHead(all, h, parse)
  {
    hide FindHeaderEnd, AfterHead, WithHead;
    assert all[..h + 3] + all[h + 3..n] == all[..n];
    assert all[..n] + all[n..] == all;
    assert ([all[h + 3..n]] + late)[1..] == late;
    HeadFixesOutcome(all[..n], late, h, parse);
  }

  /**
   Two ways of cutting the same stream get different answers exactly inside that window: then one is
   refused with 413 and the other gets the answer its bytes determine.
   */
  lemma CutsMatterExactly(all: Bytes, parse: Parser)
    ensures Ambiguous(all, parse) <==>
      exists a: seq<Bytes>, b: seq<Bytes> ::
        && ValidReads(a) && ValidReads(b) && Join(a) == all && Join(b) == all
        && Serve(a, parse) != Serve(b, parse)
  {
    if Ambiguous(all, parse) {
      var h := FindHeaderEnd(all).value;
      var most := if |all| <= h + 3 + READ_SIZE then |all| else h + 3 + READ_SIZE;
      var a := CompletingRead(all, h + 4, parse);
      var b := CompletingRead(all, most, parse);
      assert Serve(a, parse) != Serve(b, parse);
    } else {
      forall a: seq<Bytes> | ValidReads(a) && Join(a) == all
        ensures Serve(a, parse) == Frame(all, parse)
      {
        assert [] + Join(a) == all;
        CutsDoNotMatter([], a, parse);
      }
    }
  }
}
