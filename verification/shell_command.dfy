/**
 The command line of the canary's remote TUI (engine/src/codex_app_server_canary.rs, `shell_quote`
 as `spawn_remote_tui` uses it), read back with the shell's own rules: token recognition and quoting
 of sections 2.2.1, 2.2.2 and 2.3 of POSIX.1-2017 XCU. Also `contains_subsequence`.
 */
module ShellCommand {
  import opened Wrappers

  // ---------------------------------------------------------------------------------------------
  // The shell
  // ---------------------------------------------------------------------------------------------

  const NUL: char := '\0'

  /** Unquoted characters outside this set need rules that this tokenizer does not have. */
  predicate IsOrdinary(c: char) {
    || 'a' <= c <= 'z' || 'A' <= c <= 'Z' || '0' <= c <= '9'
    || c == '_' || c == '-' || c == '.' || c == '/' || c == ':' || c == '@' || c == ',' || c == '+'
  }

  predicate IsSeparator(c: char) {
    c == ' ' || c == '\t'
  }

  datatype Mode = Between | InWord | InQuotes | AfterBackslash

  /** Tokenizing in progress: finished words, the current one, and how to read the next character. */
  datatype Reader = Reader(words: seq<string>, current: string, mode: Mode)

  /** `None` for a character whose meaning is not modelled here: it is never produced below. */
  function ReadChar(r: Reader, c: char): Option<Reader> {
    if c == NUL then None
    else
      match r.mode
      case InQuotes =>
        // section 2.2.2: everything up to the closing quote is literal
        Some(if c == '\'' then r.(mode := InWord) else r.(current := r.current + [c]))
      case AfterBackslash =>
        // section 2.2.1: the next character is literal; line continuation is not modelled
        if c == '\n' then None else Some(r.(current := r.current + [c], mode := InWord))
      case _ =>
        if c == '\'' then Some(r.(mode := InQuotes))
        else if c == '\\' then Some(r.(mode := AfterBackslash))
        else if IsSeparator(c) then
          Some(if r.mode.InWord? then Reader(r.words + [r.current], "", Between) else r)
        else if IsOrdinary(c) then Some(r.(current := r.current + [c], mode := InWord))
        else None
  }

  function ReadText(r: Reader, text: string): Option<Reader>
    decreases |text|
  {
    if text == "" then Some(r)
    else
      var next := ReadChar(r, text[0]);
      if next.None? then None else ReadText(next.value, text[1..])
  }

  /** The words of a command, if it is complete. */
  function Words(text: string): Option<seq<string>> {
    var r := ReadText(Reader([], "", Between), text);
    if r.None? then None
    else
      match r.value.mode
      case Between => Some(r.value.words)
      case InWord => Some(r.value.words + [r.value.current])
      case _ => None
  }

  // ---------------------------------------------------------------------------------------------
  // Quoting
  // ---------------------------------------------------------------------------------------------

  /** `value.replace('\'', r"'\''")` */
  function Escape(value: string): string {
    if value == "" then ""
    else (if value[0] == '\'' then "'\\''" else [value[0]]) + Escape(value[1..])
  }

  function ShellQuote(value: string): string {
    "'" + Escape(value) + "'"
  }

  predicate NulFree(value: string) {
    NUL !in value
  }

  lemma {:induction false} ReadAppend(r: Reader, a: string, b: string)
    ensures ReadText(r, a + b)
         == if ReadText(r, a).None? then None else ReadText(ReadText(r, a).value, b)
    decreases |a|
  {
    if a == "" {
      assert a + b == b;
    } else {
      assert (a + b)[1..] == a[1..] + b;
      hide ReadChar;
      var next := ReadChar(r, a[0]);
      if next.Some? {
        ReadAppend(next.value, a[1..], b);
      }
    }
  }

  lemma ReadOne(r: Reader, c: char)
    ensures ReadText(r, [c]) == ReadChar(r, c)
  {
    hide ReadChar;
    assert [c][1..] == "";
  }

  /** The four characters that stand for a quote put exactly a quote into the word. */
  lemma ReadEscapedQuote(r: Reader)
    requires r.mode.InQuotes?
    ensures ReadText(r, "'\\''") == Some(r.(current := r.current + "'"))
  {
    var r1, r2 := r.(mode := InWord), r.(mode := AfterBackslash);
    var r3 := r.(current := r.current + ['\''], mode := InWord);
    assert "'\\''"[1..] == "\\''" && "\\''"[1..] == "''" && "''"[1..] == "'" && "'"[1..] == "";
    assert ReadChar(r, '\'') == Some(r1);
    assert ReadChar(r1, '\\') == Some(r2);
    assert ReadChar(r2, '\'') == Some(r3);
    assert ReadChar(r3, '\'') == Some(r3.(mode := InQuotes));
    hide ReadChar;
    assert ReadText(r, "'\\''") == ReadText(r1, "\\''");
    assert ReadText(r1, "\\''") == ReadText(r2, "''");
    assert ReadText(r2, "''") == ReadText(r3, "'");
  }

  /** Inside quotes, an escaped value adds that value and nothing else. */
  lemma {:induction false} ReadEscaped(r: Reader, value: string)
    requires NulFree(value) && r.mode.InQuotes?
    ensures ReadText(r, Escape(value)) == Some(r.(current := r.current + value))
    decreases |value|
  {
    if value == "" {
      assert r.current + value == r.current;
    } else {
      var first := if value[0] == '\'' then "'\\''" else [value[0]];
      var next := r.(current := r.current + [value[0]]);
      ReadEscapedQuote(r);
      ReadOne(r, value[0]);
      assert ReadText(r, first) == Some(next) by {
        assert value[0] != NUL;
        assert "'" == ['\''];
      }
      ReadAppend(r, first, Escape(value[1..]));
      hide ReadChar;
      ReadEscaped(next, value[1..]);
      assert r.current + [value[0]] + value[1..] == r.current + value;
    }
  }

  /** A quoted value is read as itself, into the word being read. */
  lemma ReadQuoted(r: Reader, value: string)
    requires NulFree(value) && (r.mode.Between? || r.mode.InWord?)
    ensures ReadText(r, ShellQuote(value)) == Some(r.(current := r.current + value, mode := InWord))
  {
    var inside := r.(mode := InQuotes);
    var done := inside.(current := inside.current + value);
    ReadOne(r, '\'');
    ReadOne(done, '\'');
    ReadAppend(r, "'", Escape(value) + "'");
    ReadAppend(inside, Escape(value), "'");
    ReadEscaped(inside, value);
    assert ShellQuote(value) == "'" + (Escape(value) + "'");
  }

  lemma {:induction false} ReadPlain(r: Reader, word: string)
    requires (r.mode.Between? || r.mode.InWord?) && word != "" && forall c | c in word :: IsOrdinary(c)
    ensures ReadText(r, word) == Some(r.(current := r.current + word, mode := InWord))
    decreases |word|
  {
    assert IsOrdinary(word[0]) && word[0] != NUL;
    var next := r.(current := r.current + [word[0]], mode := InWord);
    assert ReadChar(r, word[0]) == Some(next);
    hide ReadChar, IsOrdinary;
    assert ReadText(r, word) == ReadText(next, word[1..]);
    if word[1..] == "" {
      assert word == [word[0]];
    } else {
      ReadPlain(next, word[1..]);
    }
    assert r.current + [word[0]] + word[1..] == r.current + word;
  }

  // ---------------------------------------------------------------------------------------------
  // Whole commands
  // ---------------------------------------------------------------------------------------------

  /** A word as it is written: verbatim, or quoted. */
  datatype Part = Verbatim(text: string) | Quoted(value: string)

  predicate AllOrdinary(text: string) {
    forall c | c in text :: IsOrdinary(c)
  }

  predicate Sound(p: Part) {
    match p
    case Verbatim(text) => text != "" && AllOrdinary(text)
    case Quoted(value) => NulFree(value)
  }

  function Written(p: Part): string {
    match p
    case Verbatim(text) => text
    case Quoted(value) => ShellQuote(value)
  }

  function Meant(p: Part): string {
    match p
    case Verbatim(text) => text
    case Quoted(value) => value
  }

  /** Parts written with single spaces between them. */
  function Line(parts: seq<Part>): string {
    if parts == [] then ""
    else if |parts| == 1 then Written(parts[0])
    else Line(parts[..|parts| - 1]) + " " + Written(parts[|parts| - 1])
  }

  function Meanings(parts: seq<Part>): seq<string> {
    if parts == [] then [] else Meanings(parts[..|parts| - 1]) + [Meant(parts[|parts| - 1])]
  }

  lemma ReadPart(r: Reader, p: Part)
    requires Sound(p) && (r.mode.Between? || r.mode.InWord?)
    ensures ReadText(r, Written(p)) == Some(r.(current := r.current + Meant(p), mode := InWord))
  {
    match p
    case Verbatim(text) => ReadPlain(r, text);
    case Quoted(value) => ReadQuoted(r, value);
  }

  lemma SpaceEndsWord(words: seq<string>, word: string)
    ensures ReadText(Reader(words, word, InWord), " ") == Some(Reader(words + [word], "", Between))
  {
    ReadOne(Reader(words, word, InWord), ' ');
  }

  lemma {:induction false} ReadLine(parts: seq<Part>)
    requires parts != [] && forall p | p in parts :: Sound(p)
    ensures var n := |parts| - 1;
      ReadText(Reader([], "", Between), Line(parts))
        == Some(Reader(Meanings(parts[..n]), Meant(parts[n]), InWord))
  {
    var n := |parts| - 1;
    var start := Reader([], "", Between);
    assert Sound(parts[n]);
    hide Sound, Written, Meant, ReadChar;
    if n == 0 {
      ReadPart(start, parts[0]);
      assert "" + Meant(parts[0]) == Meant(parts[0]);
    } else {
      var before := parts[..n];
      ReadLine(before);
      var r := Reader(Meanings(before[..n - 1]), Meant(before[n - 1]), InWord);
      var gap := Reader(Meanings(before), "", Between);
      SpaceEndsWord(Meanings(before[..n - 1]), Meant(before[n - 1]));
      assert Line(parts) == Line(before) + " " + Written(parts[n]);
      assert Meanings(before) == Meanings(before[..n - 1]) + [Meant(before[n - 1])];
      hide ReadText, Line, Meanings;
      ReadAppend(start, Line(before) + " ", Written(parts[n]));
      ReadAppend(start, Line(before), " ");
      ReadPart(gap, parts[n]);
      assert "" + Meant(parts[n]) == Meant(parts[n]);
    }
  }

  /** Every command written this way is read back as exactly the words that were meant. */
  lemma RoundTrip(parts: seq<Part>)
    requires parts != [] && forall p | p in parts :: Sound(p)
    ensures Words(Line(parts)) == Some(Meanings(parts))
  {
    ReadLine(parts);
    hide Meant, Written, Sound;
  }

  // ---------------------------------------------------------------------------------------------
  // The remote TUI's command
  // ---------------------------------------------------------------------------------------------

  /** The `exec` command as `spawn_remote_tui` formats it. */
  function RemoteExec(codexBin: string, threadId: Option<string>, wsUrl: string): string {
    if threadId.Some? then
      "exec " + ShellQuote(codexBin) + " resume " + ShellQuote(threadId.value)
      + " --enable tui_app_server --remote " + ShellQuote(wsUrl) + " --no-alt-screen"
    else
      "exec " + ShellQuote(codexBin) + " --enable tui_app_server --remote " + ShellQuote(wsUrl) + " --no-alt-screen"
  }

  lemma LineSnoc(parts: seq<Part>, p: Part)
    requires parts != []
    ensures Line(parts + [p]) == Line(parts) + " " + Written(p)
    ensures Meanings(parts + [p]) == Meanings(parts) + [Meant(p)]
  {
    hide Written, Meant;
    assert (parts + [p])[..|parts|] == parts;
  }

  /** The literal of the format string, word by word. */
  lemma FlagLiterals()
    ensures " --enable tui_app_server --remote " == " " + "--enable" + " " + "tui_app_server" + " " + "--remote" + " "
    ensures " --no-alt-screen" == " " + "--no-alt-screen"
  {
  }

  lemma Respace(line: string, gap: string, a: string, b: string, c: string, d: string, e: string)
    ensures line + gap + a + gap + b + gap + c + gap + d + gap + e
         == line + (gap + a + gap + b + gap + c + gap) + d + (gap + e)
  {
    var x := line + gap + a + gap + b;
    assert x == line + (gap + a + gap + b);
    assert x + gap + c + gap == line + (gap + a + gap + b + gap + c + gap);
    var y := line + (gap + a + gap + b + gap + c + gap) + d;
    assert y + gap + e == y + (gap + e);
  }

  function FlagParts(wsUrl: string): seq<Part> {
    [Verbatim("--enable"), Verbatim("tui_app_server"), Verbatim("--remote"), Quoted(wsUrl), Verbatim("--no-alt-screen")]
  }

  lemma LineOfFive(head: seq<Part>, a: Part, b: Part, c: Part, d: Part, e: Part)
    requires head != []
    ensures Line(head + [a, b, c, d, e])
         == Line(head) + " " + Written(a) + " " + Written(b) + " " + Written(c) + " " + Written(d) + " " + Written(e)
    ensures Meanings(head + [a, b, c, d, e]) == Meanings(head) + [Meant(a), Meant(b), Meant(c), Meant(d), Meant(e)]
  {
    hide Line, Meanings, Written, Meant;
    LineSnoc(head, a);
    LineSnoc(head + [a], b);
    LineSnoc(head + [a] + [b], c);
    LineSnoc(head + [a] + [b] + [c], d);
    LineSnoc(head + [a] + [b] + [c] + [d], e);
    assert head + [a, b, c, d, e] == head + [a] + [b] + [c] + [d] + [e];
  }

  lemma TailOfLine(head: seq<Part>, wsUrl: string)
    requires head != []
    ensures var parts := head + FlagParts(wsUrl);
      && Line(parts)
         == Line(head) + " --enable tui_app_server --remote " + ShellQuote(wsUrl) + " --no-alt-screen"
      && Meanings(parts) == Meanings(head) + ["--enable", "tui_app_server", "--remote", wsUrl, "--no-alt-screen"]
  {
    hide Line, Meanings, ShellQuote;
    LineOfFive(head, Verbatim("--enable"), Verbatim("tui_app_server"), Verbatim("--remote"),
               Quoted(wsUrl), Verbatim("--no-alt-screen"));
    Respace(Line(head), " ", "--enable", "tui_app_server", "--remote", ShellQuote(wsUrl), "--no-alt-screen");
    FlagLiterals();
  }

  lemma FlagsAreOrdinary(wsUrl: string)
    requires NulFree(wsUrl)
    ensures forall p | p in FlagParts(wsUrl) :: Sound(p)
  {
    hide IsOrdinary;
    Ordinary1();
    Ordinary2();
    hide AllOrdinary;
  }

  lemma Ordinary1()
    ensures AllOrdinary("--enable") && AllOrdinary("tui_app_server")
  {
  }

  lemma Ordinary2()
    ensures AllOrdinary("--remote") && AllOrdinary("--no-alt-screen")
  {
  }

  lemma Ordinary3()
    ensures AllOrdinary("exec") && AllOrdinary("resume")
  {
  }

  /**
   For all NUL-free arguments, whatever quotes, spaces, newlines or shell operators they contain, the
   shell sees the intended words, each argument as one word and unchanged.
   */
  lemma RemoteExecIsReadBack(codexBin: string, threadId: Option<string>, wsUrl: string)
    requires NulFree(codexBin) && NulFree(wsUrl) && (threadId.Some? ==> NulFree(threadId.value))
    ensures Words(RemoteExec(codexBin, threadId, wsUrl))
         == Some(["exec", codexBin]
                 + (if threadId.Some? then ["resume", threadId.value] else [])
                 + ["--enable", "tui_app_server", "--remote", wsUrl, "--no-alt-screen"])
  {
    var head := HeadOfLine(codexBin, threadId);
    hide Line, Meanings, Words, ShellQuote, Sound, FlagParts, RemoteExec, HeadText;
    FlagsAreOrdinary(wsUrl);
    TailOfLine(head, wsUrl);
    RoundTrip(head + FlagParts(wsUrl));
    RemoteExecText(codexBin, threadId, wsUrl);
    hide RemoteExec;
    assert Meanings(head + FlagParts(wsUrl))
        == Meanings(head) + ["--enable", "tui_app_server", "--remote", wsUrl, "--no-alt-screen"];
  }

  function HeadText(codexBin: string, threadId: Option<string>): string {
    "exec " + ShellQuote(codexBin) + if threadId.Some? then " resume " + ShellQuote(threadId.value) else ""
  }

  lemma RemoteExecText(codexBin: string, threadId: Option<string>, wsUrl: string)
    ensures RemoteExec(codexBin, threadId, wsUrl)
         == HeadText(codexBin, threadId) + " --enable tui_app_server --remote " + ShellQuote(wsUrl) + " --no-alt-screen"
  {
    hide ShellQuote;
    if threadId.Some? {
      Associate("exec " + ShellQuote(codexBin), " resume ", ShellQuote(threadId.value));
    } else {
      Associate("exec " + ShellQuote(codexBin), "", "");
    }
  }

  lemma Associate(a: string, b: string, c: string)
    ensures a + b + c == a + (b + c)
    ensures a + "" == a
  {
  }

  lemma HeadOfLine(codexBin: string, threadId: Option<string>) returns (head: seq<Part>)
    requires NulFree(codexBin) && (threadId.Some? ==> NulFree(threadId.value))
    ensures head != [] && forall p | p in head :: Sound(p)
    ensures Line(head) == HeadText(codexBin, threadId)
    ensures Meanings(head) == ["exec", codexBin] + (if threadId.Some? then ["resume", threadId.value] else [])
  {
    Ordinary3();
    hide AllOrdinary;
    var h0 := [Verbatim("exec")];
    var h1 := h0 + [Quoted(codexBin)];
    assert h0[..0] == [] && Meanings(h0) == ["exec"] && Line(h0) == "exec";
    hide Line, Meanings, ShellQuote, NulFree;
    LineSnoc(h0, Quoted(codexBin));
    assert "exec " == "exec" + " ";
    if threadId.None? {
      head := h1;
    } else {
      var h2 := h1 + [Verbatim("resume")];
      head := h2 + [Quoted(threadId.value)];
      LineSnoc(h1, Verbatim("resume"));
      LineSnoc(h2, Quoted(threadId.value));
      assert " resume " == " " + "resume" + " ";
    }
  }

  // ---------------------------------------------------------------------------------------------
  // Subsequences
  // ---------------------------------------------------------------------------------------------

  /** `at` embeds `wanted` into `states`, in order. */
  predicate Embeds(states: seq<string>, wanted: seq<string>, at: seq<nat>) {
    && |at| == |wanted|
    && (forall k | 0 <= k < |at| :: at[k] < |states| && states[at[k]] == wanted[k])
    && (forall j, k | 0 <= j < k < |at| :: at[j] < at[k])
  }

  ghost predicate IsSubsequence(states: seq<string>, wanted: seq<string>) {
    exists at: seq<nat> :: Embeds(states, wanted, at)
  }

  lemma EmbedsSnoc(states: seq<string>, wanted: seq<string>, at: seq<nat>, i: nat)
    requires i < |states| && Embeds(states[..i], wanted, at)
    ensures Embeds(states[..i + 1], wanted, at)
    ensures Embeds(states[..i + 1], wanted + [states[i]], at + [i])
  {
  }

  /** A state that is not the next wanted word can be left out of any embedding. */
  lemma MismatchIsUseless(states: seq<string>, wanted: seq<string>, i: nat, idx: nat)
    requires i < |states| && idx < |wanted| && states[i] != wanted[idx]
    requires IsSubsequence(states[..i + 1], wanted[..idx + 1])
    ensures IsSubsequence(states[..i], wanted[..idx + 1])
  {
    var at: seq<nat> :| Embeds(states[..i + 1], wanted[..idx + 1], at);
    assert at[idx] != i;
    assert forall k | 0 <= k < idx :: at[k] < at[idx];
    assert Embeds(states[..i], wanted[..idx + 1], at);
  }

  /** Greedy matching is optimal: an embedding of one word more already embedded the others. */
  lemma LastMatchIsLast(states: seq<string>, wanted: seq<string>, i: nat, idx: nat)
    requires i < |states| && idx + 1 < |wanted|
    requires IsSubsequence(states[..i + 1], wanted[..idx + 2])
    ensures IsSubsequence(states[..i], wanted[..idx + 1])
  {
    var at: seq<nat> :| Embeds(states[..i + 1], wanted[..idx + 2], at);
    assert forall k | 0 <= k <= idx :: at[k] < at[idx + 1];
    assert Embeds(states[..i], wanted[..idx + 1], at[..idx + 1]);
  }

  lemma PrefixesEmbed(states: seq<string>, wanted: seq<string>, n: nat)
    requires n <= |wanted| && IsSubsequence(states, wanted)
    ensures IsSubsequence(states, wanted[..n])
  {
    var at: seq<nat> :| Embeds(states, wanted, at);
    assert Embeds(states, wanted[..n], at[..n]);
  }

  lemma GrowsWithStates(states: seq<string>, wanted: seq<string>, i: nat)
    requires i <= |states| && IsSubsequence(states[..i], wanted)
    ensures IsSubsequence(states, wanted)
  {
    var at: seq<nat> :| Embeds(states[..i], wanted, at);
    assert Embeds(states, wanted, at);
  }

  method ContainsSubsequence(states: seq<string>, wanted: seq<string>) returns (found: bool)
    ensures found <==> IsSubsequence(states, wanted)
  {
    if |wanted| == 0 {
      assert Embeds(states, wanted, []);
      return true;
    }
    var idx := 0;
    var i := 0;
    ghost var at: seq<nat> := [];
    assert Embeds(states[..0], wanted[..0], at);
    assert forall any: seq<nat> :: Embeds(states[..0], wanted[..1], any) ==> any[0] < 0;
    while i < |states|
      invariant 0 <= i <= |states| && 0 <= idx < |wanted|
      invariant Embeds(states[..i], wanted[..idx], at)
      invariant !IsSubsequence(states[..i], wanted[..idx + 1])
    {
      EmbedsSnoc(states, wanted[..idx], at, i);
      if states[i] == wanted[idx] {
        assert wanted[..idx] + [states[i]] == wanted[..idx + 1];
        at := at + [i];
        if idx + 1 == |wanted| {
          assert wanted[..idx + 1] == wanted;
          GrowsWithStates(states, wanted, i + 1);
          return true;
        }
        if IsSubsequence(states[..i + 1], wanted[..idx + 2]) {
          LastMatchIsLast(states, wanted, i, idx);
        }
        idx := idx + 1;
      } else if IsSubsequence(states[..i + 1], wanted[..idx + 1]) {
        MismatchIsUseless(states, wanted, i, idx);
      }
      i := i + 1;
    }
    assert states[..i] == states;
    if IsSubsequence(states, wanted) {
      PrefixesEmbed(states, wanted, idx + 1);
    }
    return false;
  }
}
