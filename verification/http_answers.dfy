/**
 What a client's bytes say, without the functions that read them (engine/src/claude_channel_server.rs,
 `read_http_request`; section 6.2 of RFC 9112).

 `IsAnswer` names the answer to a byte stream in terms of its first blank line, the parsed head and the
 decimal text in its first Content-Length. The main lemma compares it with what the server's two loops
 make of any way of cutting the stream into reads.
 */
module HttpAnswers {
  import opened Wrappers
  import opened Decimals
  import opened HttpFraming

  ghost predicate FirstBlankLine(all: Bytes, h: nat) {
    BlankLineAt(all, h) && forall k: nat | k < h :: !BlankLineAt(all, k)
  }

  /** The first header with this name. */
  predicate FirstHeader(head: Head, i: nat, key: string) {
    i < |head.headers| && head.headers[i].0 == key && forall k | 0 <= k < i :: head.headers[k].0 != key
  }

  /** `usize::MAX` bounds the numbers a Content-Length can hold. */
  ghost predicate IsLength(text: string, n: nat) {
    n < USIZE_LIMIT && IsNumberText(text, n)
  }

  /** The body's length: the number in the first Content-Length; none at all if there is no such number. */
  ghost predicate LengthIs(head: Head, n: nat) {
    if exists i: nat, m: nat :: FirstHeader(head, i, "content-length") && IsLength(head.headers[i].1, m) then
      exists i: nat :: FirstHeader(head, i, "content-length") && IsLength(head.headers[i].1, n)
    else n == 0
  }

  predicate IsHead(head: Option<Head>) {
    head.Some? && head.value.verb != "" && head.value.path != ""
  }

  /** The answer to a whole stream. */
  ghost predicate IsAnswer(all: Bytes, parse: Parser, answer: Outcome) {
    if forall h: nat :: !BlankLineAt(all, h) then answer == Refused(if |all| > MAX_BYTES then 413 else 400)
    else
      exists h: nat :: FirstBlankLine(all, h) && IsAnswerAfter(all, h, parse(all[..h]), answer)
  }

  ghost predicate IsAnswerAfter(all: Bytes, h: nat, head: Option<Head>, answer: Outcome)
    requires h + 4 <= |all|
  {
    if h + 4 > MAX_BYTES then answer == Refused(413)
    else if !IsHead(head) then answer == Refused(400)
    else
      exists n: nat :: LengthIs(head.value, n) &&
        answer == if n > MAX_BYTES then Refused(413)
                  else if h + 4 + n > |all| then Refused(400)
                  else Request(head.value, all[h + 4..h + 4 + n])
  }

  // ---------------------------------------------------------------------------------------------
  // The length
  // ---------------------------------------------------------------------------------------------

  lemma DigitsParse(digits: string)
    requires AllDigits(digits)
    ensures var r := if DigitsValue(digits) < USIZE_LIMIT then Some(DigitsValue(digits)) else None;
      ParseUsize(digits) == r && ParseUsize("+" + digits) == r
  {
    assert digits[0] in digits;
    assert ("+" + digits)[1..] == digits;
    hide DigitsValue;
  }

  lemma NumberTextReads(text: string, n: nat)
    requires IsNumberText(text, n)
    ensures ParseUsize(text) == if n < USIZE_LIMIT then Some(n) else None
  {
    DecimalReadsBack(n);
    hide ParseUsize, Decimal, DigitsValue;
    if z: nat :| text == Zeros(z) + Decimal(n) {
      ZerosAreNothing(z, Decimal(n));
      DigitsParse(text);
    } else {
      var z: nat :| text == "+" + Zeros(z) + Decimal(n);
      ZerosAreNothing(z, Decimal(n));
      assert text == "+" + (Zeros(z) + Decimal(n));
      DigitsParse(Zeros(z) + Decimal(n));
    }
  }

  /** A text parses as `n` if and only if it is a text of `n`, and `n` fits. */
  lemma ParseMeaning(text: string, n: nat)
    ensures ParseUsize(text) == Some(n) <==> IsLength(text, n)
  {
    if ParseUsize(text) == Some(n) {
      ParsedIsANumber(text, n);
    }
    if IsLength(text, n) {
      NumberTextReads(text, n);
    }
  }

  lemma ParsedIsANumber(text: string, n: nat)
    requires ParseUsize(text) == Some(n)
    ensures IsLength(text, n)
  {
    var digits := if |text| > 1 && text[0] == '+' then text[1..] else text;
    assert AllDigits(digits) && DigitsValue(digits) == n && n < USIZE_LIMIT;
    assert digits == text || text == "+" + digits;
    hide ParseUsize;
    DigitsAreADecimal(digits);
    hide Decimal, DigitsValue, Zeros, AllDigits;
    var z: nat :| digits == Zeros(z) + Decimal(n);
    Regroup("+", Zeros(z), Decimal(n));
  }

  lemma {:induction false} FindMeaning(headers: seq<(string, string)>, key: string, verb: string, path: string)
    ensures Find(headers, key).Some? ==>
              exists i: nat :: FirstHeader(Head(verb, path, headers), i, key) && headers[i].1 == Find(headers, key).value
    ensures Find(headers, key).None? ==> forall i: nat :: !FirstHeader(Head(verb, path, headers), i, key)
  {
    if headers != [] {
      var rest := headers[1..];
      if headers[0].0 == key {
        assert FirstHeader(Head(verb, path, headers), 0, key);
      } else {
        FindMeaning(rest, key, verb, path);
        assert forall k | 0 < k < |headers| :: headers[k] == rest[k - 1];
        if Find(rest, key).Some? {
          var i: nat :| FirstHeader(Head(verb, path, rest), i, key) && rest[i].1 == Find(rest, key).value;
          assert FirstHeader(Head(verb, path, headers), i + 1, key);
        } else {
          forall i: nat | FirstHeader(Head(verb, path, headers), i, key)
            ensures false
          {
            assert FirstHeader(Head(verb, path, rest), i - 1, key);
          }
        }
      }
    }
  }

  lemma FirstHeaderIsUnique(head: Head, i: nat, j: nat, key: string)
    requires FirstHeader(head, i, key) && FirstHeader(head, j, key)
    ensures i == j
  {
  }

  /** What the code takes the length to be is what the head says, and nothing else is. */
  lemma LengthMeaning(head: Head, n: nat)
    ensures LengthIs(head, n) <==> n == ContentLength(head)
  {
    var key := "content-length";
    FindMeaning(head.headers, key, head.verb, head.path);
    var found := Find(head.headers, key);
    if found.Some? {
      var i: nat :| FirstHeader(head, i, key) && head.headers[i].1 == found.value;
      forall m: nat
        ensures ParseUsize(found.value) == Some(m) <==> IsLength(found.value, m)
      {
        ParseMeaning(found.value, m);
      }
      forall j: nat | FirstHeader(head, j, key)
        ensures j == i
      {
        FirstHeaderIsUnique(head, i, j, key);
      }
      hide ParseUsize, IsLength, FirstHeader;
      if ParseUsize(found.value).Some? {
        assert IsLength(head.headers[i].1, ParseUsize(found.value).value);
      }
    } else {
      hide FirstHeader, IsLength;
    }
  }

  // ---------------------------------------------------------------------------------------------
  // The answer
  // ---------------------------------------------------------------------------------------------

  lemma FirstBlankLineIsUnique(all: Bytes, g: nat, h: nat)
    requires FirstBlankLine(all, g) && FirstBlankLine(all, h)
    ensures g == h
  {
  }

  lemma AfterHeadMeaning(all: Bytes, h: nat, parse: Parser, answer: Outcome)
    requires h + 4 <= |all| && h + 4 <= MAX_BYTES
    ensures IsAnswerAfter(all, h, parse(all[..h]), answer) <==> answer == AfterHead(all, h, parse)
  {
    var head := parse(all[..h]);
    if IsHead(head) {
      forall n: nat
        ensures LengthIs(head.value, n) <==> n == ContentLength(head.value)
      {
        LengthMeaning(head.value, n);
      }
      assert LengthIs(head.value, ContentLength(head.value));
    }
    hide LengthIs, ContentLength;
  }

  /** Every stream has exactly one answer. */
  lemma AnswerMeaning(all: Bytes, parse: Parser, answer: Outcome)
    ensures IsAnswer(all, parse, answer) <==> answer == Frame(all, parse)
  {
    var found := FindHeaderEnd(all);
    if found.Some? {
      var h := found.value;
      assert FirstBlankLine(all, h);
      forall g: nat | FirstBlankLine(all, g)
        ensures g == h
      {
        FirstBlankLineIsUnique(all, g, h);
      }
      if h + 4 <= MAX_BYTES {
        AfterHeadMeaning(all, h, parse, answer);
      }
      hide FirstBlankLine, FindHeaderEnd, AfterHead, LengthIs, IsHead;
    }
  }

  /** Any way of cutting a stream that is not answered as a whole is refused as too long. */
  lemma {:induction false} ReadsOrRefuses(raw: Bytes, chunks: seq<Bytes>, parse: Parser)
    requires |raw| <= MAX_BYTES && FindHeaderEnd(raw).None?
    ensures var answer := ReadHead(raw, chunks, parse);
      answer == Frame(raw + Join(chunks), parse) || answer == Refused(413)
    decreases |chunks|
  {
    var all := raw + Join(chunks);
    if chunks == [] {
      assert all == raw;
    } else {
      var raw' := raw + chunks[0];
      assert all == raw' + Join(chunks[1..]);
      assert all[..|raw'|] == raw';
      HeaderEndOfPrefix(all, |raw'|);
      if |raw'| <= MAX_BYTES {
        if FindHeaderEnd(raw').Some? {
          HeadFixesOutcome(raw', chunks[1..], FindHeaderEnd(raw').value, parse);
        } else {
          ReadsOrRefuses(raw', chunks[1..], parse);
        }
      }
    }
  }

  /**
   For every stream and every way of cutting it into reads, the server's answer is the one its bytes
   name, or 413 for a stream in the window above 1 MiB where the cuts matter.
   */
  lemma ServedAsAnnounced(chunks: seq<Bytes>, parse: Parser)
    requires ValidReads(chunks)
    ensures var all, answer := Join(chunks), Serve(chunks, parse);
      IsAnswer(all, parse, answer) || (answer == Refused(413) && Ambiguous(all, parse))
  {
    var all := Join(chunks);
    assert [] + all == all;
    ReadsOrRefuses([], chunks, parse);
    AnswerMeaning(all, parse, Serve(chunks, parse));
    if !Ambiguous(all, parse) {
      CutsDoNotMatter([], chunks, parse);
    }
    hide Frame, Ambiguous, Serve, IsAnswer;
  }

  /**
   In particular, if the first Content-Length is a decimal number, an accepted request's body is exactly
   that many bytes after the first blank line, for every stream and every way of cutting it.
   */
  lemma BodyIsAsLongAsAnnounced(chunks: seq<Bytes>, parse: Parser, i: nat, n: nat)
    requires ValidReads(chunks) && Serve(chunks, parse).Request?
    requires FirstHeader(Serve(chunks, parse).head, i, "content-length")
    requires n < USIZE_LIMIT && Serve(chunks, parse).head.headers[i].1 == Decimal(n)
    ensures var all, request := Join(chunks), Serve(chunks, parse);
      exists h: nat ::
        && FirstBlankLine(all, h) && parse(all[..h]) == Some(request.head)
        && h + 4 + n <= |all| && request.body == all[h + 4..h + 4 + n]
  {
    var all, answer := Join(chunks), Serve(chunks, parse);
    ServedAsAnnounced(chunks, parse);
    LengthOfDecimal(answer.head, i, n);
    hide LengthIs, Serve, Join, Ambiguous, FirstHeader, FirstBlankLine, IsAnswer, Decimal;
    AnswerOfLength(all, parse, answer, n);
  }

  lemma AnswerOfLength(all: Bytes, parse: Parser, request: Outcome, n: nat)
    requires request.Request? && IsAnswer(all, parse, request)
    requires forall m: nat :: LengthIs(request.head, m) <==> m == n
    ensures exists h: nat ::
        && FirstBlankLine(all, h) && parse(all[..h]) == Some(request.head)
        && h + 4 + n <= |all| && request.body == all[h + 4..h + 4 + n]
  {
    hide LengthIs;
    var h: nat :| FirstBlankLine(all, h) && IsAnswerAfter(all, h, parse(all[..h]), request);
    assert parse(all[..h]) == Some(request.head);
  }

  lemma LengthOfDecimal(head: Head, i: nat, n: nat)
    requires FirstHeader(head, i, "content-length")
    requires n < USIZE_LIMIT && head.headers[i].1 == Decimal(n)
    ensures forall m: nat :: LengthIs(head, m) <==> m == n
  {
    DecimalIsLength(n);
    hide IsLength, Decimal;
    assert LengthIs(head, n);
    LengthMeaning(head, n);
    hide LengthIs, FirstHeader;
    forall m: nat
      ensures LengthIs(head, m) <==> m == n
    {
      LengthMeaning(head, m);
    }
  }

  lemma DecimalIsLength(n: nat)
    requires n < USIZE_LIMIT
    ensures IsLength(Decimal(n), n)
  {
    assert Zeros(0) + Decimal(n) == Decimal(n);
  }
}
