/** runtime/firecracker/runtime_linux.go: the environment file written by injectEnvVars, and a
    reader of it after sections 2.2.1 and 2.2.2 of the POSIX.1-2017 Shell Command Language. */
module EnvFile {
  import opened Wrappers

  type Env = map<string, string>

  // ----- the writer -----

  /** `bytes.ReplaceAll(s, "'", "'\\''")`. */
  function EscapeShellValue(s: string): string {
    if s == [] then []
    else (if s[0] == '\'' then ['\'', '\\', '\'', '\''] else [s[0]]) + EscapeShellValue(s[1..])
  }

  function Export(): string {
    ['e', 'x', 'p', 'o', 'r', 't', ' ']
  }

  /** `export %s=%s\n` with the quoted value. */
  function Line(k: string, v: string): string {
    Export() + k + ['=', '\''] + EscapeShellValue(v) + ['\'', '\n']
  }

  function Lines(env: Env, order: seq<string>): string
    requires forall k :: k in order ==> k in env
  {
    if order == [] then []
    else Lines(env, order[..|order| - 1]) + Line(order[|order| - 1], env[order[|order| - 1]])
  }

  /** The text of the comment that opens the file, without `#` and the newline. */
  function Comment(): string {
    " Runtime environment" + " variables injected" + " by Firecracker" + " runtime"
  }

  function Content(env: Env, order: seq<string>): string
    requires forall k :: k in order ==> k in env
  {
    ['#'] + Comment() + ['\n'] + Lines(env, order)
  }

  // ----- the reader -----

  predicate NameStart(c: char) {
    'A' <= c <= 'Z' || 'a' <= c <= 'z' || c == '_'
  }

  predicate NameChar(c: char) {
    NameStart(c) || '0' <= c <= '9'
  }

  /** A name: letters, digits and underscores, not starting with a digit. */
  predicate ValidName(k: string) {
    k != [] && NameStart(k[0]) && forall i :: 0 <= i < |k| ==> NameChar(k[i])
  }

  function NameLength(s: string): (n: nat)
    ensures n <= |s| && (forall i :: 0 <= i < n ==> NameChar(s[i])) && (n < |s| ==> !NameChar(s[n]))
  {
    if s != [] && NameChar(s[0]) then 1 + NameLength(s[1..]) else 0
  }

  /** The value of the rest of a word, and what follows its newline. */
  datatype Word = Word(value: string, rest: string)

  function Prepend(c: char, w: Option<Word>): Option<Word> {
    if w.None? then None else Some(Word([c] + w.value.value, w.value.rest))
  }

  /** Outside quotes: a newline ends the word, a quote opens a quoted part, a backslash keeps
      the next character (an escaped newline is dropped), other letters and digits stand for
      themselves. Everything else means more than quoting and is not read. */
  function ReadUnquoted(s: string): (w: Option<Word>)
    ensures w.Some? ==> |w.value.rest| < |s|
  {
    if s == [] then None
    else if s[0] == '\n' then Some(Word([], s[1..]))
    else if s[0] == '\'' then ReadQuoted(s[1..])
    else if s[0] == '\\' then
      if |s| == 1 then None
      else if s[1] == '\n' then ReadUnquoted(s[2..])
      else Prepend(s[1], ReadUnquoted(s[2..]))
    else if NameChar(s[0]) then Prepend(s[0], ReadUnquoted(s[1..]))
    else None
  }

  /** Inside single quotes every character stands for itself, and no quote can occur. */
  function ReadQuoted(s: string): (w: Option<Word>)
    ensures w.Some? ==> |w.value.rest| < |s|
  {
    if s == [] then None
    else if s[0] == '\'' then ReadUnquoted(s[1..])
    else Prepend(s[0], ReadQuoted(s[1..]))
  }

  function SkipComment(s: string): (rest: string)
    ensures |rest| <= |s|
  {
    if s == [] then [] else if s[0] == '\n' then s[1..] else SkipComment(s[1..])
  }

  predicate IsExport(s: string) {
    |s| > |Export()| && s[..|Export()|] == Export()
  }

  /** The assignments of the lines of `s`, on top of those read before. */
  function ReadLines(s: string, before: Env): (env: Option<Env>)
    ensures env.Some? && (forall k :: k in before ==> ValidName(k)) ==> forall k :: k in env.value ==> ValidName(k)
    decreases |s|
  {
    if s == [] then Some(before)
    else if s[0] == '#' then ReadLines(SkipComment(s[1..]), before)
    else if !IsExport(s) then None
    else ReadAssignment(s[|Export()|..], before)
  }

  /** The rest of an `export` line: a name, `=`, a word; then the lines that follow. */
  function ReadAssignment(t: string, before: Env): (env: Option<Env>)
    ensures env.Some? && (forall k :: k in before ==> ValidName(k)) ==> forall k :: k in env.value ==> ValidName(k)
    decreases |t|
  {
    var n := NameLength(t);
    if n == 0 || !NameStart(t[0]) || n == |t| || t[n] != '=' then None
    else
      var w := ReadUnquoted(t[n + 1..]);
      if w.None? then None else ReadLines(w.value.rest, before[t[..n] := w.value.value])
  }

  function ReadEnv(content: string): Option<Env> {
    ReadLines(content, map[])
  }

  // ----- the round trip -----

  lemma EscapedQuoteReadsBack(more: string)
    ensures ReadQuoted(['\'', '\\', '\'', '\''] + more) == Prepend('\'', ReadQuoted(more))
  {
    var s := ['\'', '\\', '\'', '\''] + more;
    assert s[1..] == ['\\', '\'', '\''] + more;
    assert s[1..][2..] == ['\''] + more;
    assert (['\''] + more)[1..] == more;
    assert ReadUnquoted(['\''] + more) == ReadQuoted(more);
    assert ReadUnquoted(s[1..]) == Prepend('\'', ReadUnquoted(['\''] + more));
  }

  lemma PlainReadsBack(c: char, more: string)
    requires c != '\''
    ensures ReadQuoted([c] + more) == Prepend(c, ReadQuoted(more))
  {
    assert ([c] + more)[1..] == more;
  }

  lemma EndOfValueReadsBack(rest: string)
    ensures ReadQuoted(['\'', '\n'] + rest) == Some(Word([], rest))
  {
    var s := ['\'', '\n'] + rest;
    assert s[1..] == ['\n'] + rest && s[1..][1..] == rest;
  }

  lemma {:induction false} QuotedValueReadsBack(v: string, rest: string)
    ensures ReadQuoted(EscapeShellValue(v) + (['\'', '\n'] + rest)) == Some(Word(v, rest))
  {
    hide ReadQuoted;
    var tail := ['\'', '\n'] + rest;
    if v == [] {
      assert EscapeShellValue(v) + tail == tail;
      EndOfValueReadsBack(rest);
    } else {
      QuotedValueReadsBack(v[1..], rest);
      var more := EscapeShellValue(v[1..]) + tail;
      assert v == [v[0]] + v[1..];
      if v[0] == '\'' {
        assert EscapeShellValue(v) + tail == ['\'', '\\', '\'', '\''] + more;
        EscapedQuoteReadsBack(more);
      } else {
        assert EscapeShellValue(v) + tail == [v[0]] + more;
        PlainReadsBack(v[0], more);
      }
    }
  }

  lemma {:induction false} NameLengthStops(k: string, s: string)
    requires (forall i :: 0 <= i < |k| ==> NameChar(k[i])) && s != [] && !NameChar(s[0])
    ensures NameLength(k + s) == |k|
  {
    if k == [] {
      assert k + s == s;
    } else {
      NameLengthStops(k[1..], s);
      assert (k + s)[1..] == k[1..] + s && NameChar((k + s)[0]);
    }
  }

  lemma ExportReadsBack(t: string, before: Env)
    requires t != []
    ensures ReadLines(Export() + t, before) == ReadAssignment(t, before)
  {
    hide ReadAssignment;
    var s := Export() + t;
    assert s[..|Export()|] == Export() && s[|Export()|..] == t && s[0] == 'e';
  }

  lemma AssignmentReadsBack(k: string, v: string, rest: string, before: Env)
    requires ValidName(k)
    ensures ReadAssignment(k + (['=', '\''] + (EscapeShellValue(v) + (['\'', '\n'] + rest))), before) ==
            ReadLines(rest, before[k := v])
  {
    var quoted := EscapeShellValue(v) + (['\'', '\n'] + rest);
    var t := k + (['=', '\''] + quoted);
    QuotedValueReadsBack(v, rest);
    NameLengthStops(k, ['=', '\''] + quoted);
    hide EscapeShellValue, ReadQuoted, NameLength, ReadLines;
    assert t[..|k|] == k;
    var word := t[|k| + 1..];
    assert word[0] == '\'' && word[1..] == quoted;
    assert ReadUnquoted(word) == Some(Word(v, rest));
  }

  lemma Regroup(a: string, b: string, c: string, d: string, e: string, rest: string)
    ensures a + b + c + d + e + rest == a + (b + (c + (d + (e + rest))))
  {
    assert d + (e + rest) == d + e + rest;
    assert c + (d + e + rest) == c + d + e + rest;
    assert b + (c + d + e + rest) == b + c + d + e + rest;
  }

  lemma LineReadsBack(k: string, v: string, rest: string, before: Env)
    requires ValidName(k)
    ensures ReadLines(Line(k, v) + rest, before) == ReadLines(rest, before[k := v])
  {
    var t := k + (['=', '\''] + (EscapeShellValue(v) + (['\'', '\n'] + rest)));
    ExportReadsBack(t, before);
    AssignmentReadsBack(k, v, rest, before);
    hide EscapeShellValue, ReadLines, ReadAssignment, Export;
    Regroup(Export(), k, ['=', '\''], EscapeShellValue(v), ['\'', '\n'], rest);
  }

  function Assigned(before: Env, env: Env, order: seq<string>): Env
    requires forall k :: k in order ==> k in env
  {
    if order == [] then before
    else Assigned(before, env, order[..|order| - 1])[order[|order| - 1] := env[order[|order| - 1]]]
  }

  lemma {:induction false} LinesReadBack(env: Env, order: seq<string>, rest: string, before: Env)
    requires forall k :: k in order ==> k in env && ValidName(k)
    ensures ReadLines(Lines(env, order) + rest, before) == ReadLines(rest, Assigned(before, env, order))
  {
    if order == [] {
      assert Lines(env, order) + rest == rest;
    } else {
      var init, k := order[..|order| - 1], order[|order| - 1];
      assert Lines(env, order) + rest == Lines(env, init) + (Line(k, env[k]) + rest);
      LinesReadBack(env, init, Line(k, env[k]) + rest, before);
      LineReadsBack(k, env[k], rest, Assigned(before, env, init));
    }
  }

  lemma {:induction false} AssignedAgrees(env: Env, order: seq<string>, k: string)
    requires forall k :: k in order ==> k in env
    ensures k in Assigned(map[], env, order) <==> k in order
    ensures k in order ==> Assigned(map[], env, order)[k] == env[k]
  {
    if order != [] {
      AssignedAgrees(env, order[..|order| - 1], k);
      assert order == order[..|order| - 1] + [order[|order| - 1]];
    }
  }

  lemma {:induction false} CommentIsSkipped(text: string, rest: string)
    requires '\n' !in text
    ensures SkipComment(text + (['\n'] + rest)) == rest
  {
    var s := text + (['\n'] + rest);
    if text == [] {
      assert s == ['\n'] + rest && s[1..] == rest;
    } else {
      CommentIsSkipped(text[1..], rest);
      assert s[1..] == text[1..] + (['\n'] + rest);
    }
  }

  lemma CommentHasNoNewline()
    ensures '\n' !in Comment()
  {
    assert '\n' !in " Runtime environment";
    assert '\n' !in " variables injected";
    assert '\n' !in " by Firecracker";
    assert '\n' !in " runtime";
  }

  lemma HeaderIsSkipped(rest: string)
    ensures ReadEnv(['#'] + Comment() + ['\n'] + rest) == ReadLines(rest, map[])
  {
    CommentHasNoNewline();
    hide Comment;
    CommentIsSkipped(Comment(), rest);
    hide SkipComment;
    var file := ['#'] + Comment() + ['\n'] + rest;
    assert file[0] == '#' && file[1..] == Comment() + (['\n'] + rest);
  }

  lemma AssignedIsEnv(env: Env, order: seq<string>)
    requires forall k :: k in order <==> k in env
    ensures Assigned(map[], env, order) == env
  {
    forall k ensures k in Assigned(map[], env, order) <==> k in env {
      AssignedAgrees(env, order, k);
    }
    forall k | k in env ensures Assigned(map[], env, order)[k] == env[k] {
      AssignedAgrees(env, order, k);
    }
  }

  /** Reading the file gives back exactly the map, for any values and whatever order the map
      yields its keys in, if and only if every key is a valid shell name. */
  lemma EnvFileRoundTrip(env: Env, order: seq<string>)
    requires forall k :: k in order <==> k in env
    ensures ReadEnv(Content(env, order)) == Some(env) <==> forall k :: k in env ==> ValidName(k)
  {
    HeaderIsSkipped(Lines(env, order));
    if forall k :: k in env ==> ValidName(k) {
      hide Comment;
      assert Lines(env, order) + [] == Lines(env, order);
      LinesReadBack(env, order, [], map[]);
      AssignedIsEnv(env, order);
      hide Lines, Assigned;
      assert ReadLines([], env) == Some(env);
    }
  }

  /** The loop of injectEnvVars; the map yields its keys in any order. */
  method EnvContent(env: Env) returns (content: string)
    ensures ReadEnv(content) == Some(env) <==> forall k :: k in env ==> ValidName(k)
  {
    hide Export, Comment, EscapeShellValue;
    content := ['#'] + Comment() + ['\n'];
    ghost var order: seq<string> := [];
    var todo := env.Keys;
    while todo != {}
      invariant todo <= env.Keys
      invariant forall k :: k in order <==> k in env.Keys - todo
      invariant content == Content(env, order)
    {
      var k :| k in todo;
      var escapedValue := ['\''] + EscapeShellValue(env[k]) + ['\''];
      content := content + (Export() + k + ['='] + escapedValue + ['\n']);
      assert Export() + k + ['='] + escapedValue + ['\n'] == Line(k, env[k]);
      assert (order + [k])[..|order|] == order;
      order := order + [k];
      todo := todo - {k};
    }
    assert forall k :: k in order <==> k in env;
    EnvFileRoundTrip(env, order);
  }
}
