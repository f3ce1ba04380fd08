/** Environment files: `KEY=value` lines, later assignments override earlier
    ones, and later files override earlier files (src/config.ts, parseEnvText
    and captureEnvFiles). */
module EnvFiles {
  import opened Identifiers

  type Env = map<string, string>

  /** `text.split('\n')` */
  function Split(text: string): (lines: seq<string>)
    ensures lines != []
  {
    if text == "" then [""] else Extend(Split(text[..|text| - 1]), text[|text| - 1])
  }

  /** One more character: a newline opens a line, anything else joins the last one. */
  function Extend(lines: seq<string>, c: char): (r: seq<string>)
    requires lines != []
    ensures r != []
  {
    if c == '\n' then lines + [""] else lines[..|lines| - 1] + [lines[|lines| - 1] + [c]]
  }

  function TrimStart(s: string): string {
    if s != "" && IsBlank(s[0]) then TrimStart(s[1..]) else s
  }

  function TrimEnd(s: string): string {
    if s != "" && IsBlank(s[|s| - 1]) then TrimEnd(s[..|s| - 1]) else s
  }

  function WithoutReturns(s: string): string {
    if s != "" && s[|s| - 1] == '\r' then WithoutReturns(s[..|s| - 1]) else s
  }

  function IndexOf(s: string, c: char): Option<nat> {
    if s == "" then None
    else if s[0] == c then Some(0)
    else
      var rest := IndexOf(s[1..], c);
      if rest.None? then None else Some(rest.value + 1)
  }

  predicate Quoted(s: string, q: char) {
    s != "" && s[0] == q && s[|s| - 1] == q
  }

  /** `value.slice(1, -1)` of a quoted value; a lone quote becomes empty. */
  function Unquote(s: string): string {
    if Quoted(s, '\"') || Quoted(s, '\'') then (if |s| < 2 then "" else s[1..|s| - 1]) else s
  }

  /** What one line assigns: nothing when it is blank, a comment, or has no `=`. */
  function Assignment(rawLine: string): Option<(string, string)> {
    var line := WithoutReturns(TrimStart(rawLine));
    var eq := IndexOf(line, '=');
    if line == "" || line[0] == '#' || eq.None? || eq.value >= |line| then None
    else Some((TrimEnd(TrimStart(line[..eq.value])), Unquote(line[eq.value + 1..])))
  }

  // ---------------------------------------------------------------- what one line says

  ghost predicate Blanks(s: string) {
    forall i | 0 <= i < |s| :: IsBlank(s[i])
  }

  lemma {:induction false} TrimsStart(pad: string, s: string)
    requires Blanks(pad) && (s != "" ==> !IsBlank(s[0]))
    ensures TrimStart(pad + s) == s
  {
    if pad == "" {
      assert pad + s == s;
    } else {
      TrimsStart(pad[1..], s);
      assert (pad + s)[1..] == pad[1..] + s;
    }
  }

  lemma {:induction false} TrimsEnd(s: string, pad: string)
    requires Blanks(pad) && (s != "" ==> !IsBlank(s[|s| - 1]))
    ensures TrimEnd(s + pad) == s
  {
    if pad == "" {
      assert s + pad == s;
    } else {
      TrimsEnd(s, pad[..|pad| - 1]);
      assert (s + pad)[..|s + pad| - 1] == s + pad[..|pad| - 1];
    }
  }

  lemma {:induction false} DropsReturns(s: string, returns_: string)
    requires (forall i | 0 <= i < |returns_| :: returns_[i] == '\r') && (s != "" ==> s[|s| - 1] != '\r')
    ensures WithoutReturns(s + returns_) == s
  {
    if returns_ == "" {
      assert s + returns_ == s;
    } else {
      DropsReturns(s, returns_[..|returns_| - 1]);
      assert (s + returns_)[..|s + returns_| - 1] == s + returns_[..|returns_| - 1];
    }
  }

  lemma {:induction false} FindsFirst(a: string, c: char, b: string)
    requires c !in a
    ensures IndexOf(a + [c] + b, c) == Some(|a|)
  {
    if a != "" {
      FindsFirst(a[1..], c, b);
      assert (a + [c] + b)[1..] == a[1..] + [c] + b;
    }
  }

  lemma {:induction false} FindsNone(s: string, c: char)
    ensures IndexOf(s, c).None? <==> c !in s
  {
    if s != "" {
      FindsNone(s[1..], c);
    }
  }

  /** The text is enclosed in one kind of quotes. */
  ghost predicate Enclosed(s: string) {
    s != "" && s[0] in {'\"', '\''} && s[|s| - 1] == s[0]
  }

  lemma UnquoteReads(value: string)
    ensures !Enclosed(value) ==> Unquote(value) == value
    ensures forall inner, q | q in {'\"', '\''} && value == [q] + inner + [q] :: Unquote(value) == inner
    ensures |value| == 1 && Enclosed(value) ==> Unquote(value) == ""
  {
    forall inner, q | value == [q] + inner + [q] ensures value[1..|value| - 1] == inner {
    }
  }

  /** What is left of a line, once its leading blanks and returns are gone. */
  lemma CleanedLine(pad: string, line: string, returns_: string)
    requires Blanks(pad) && line != "" && !IsBlank(line[0]) && line[|line| - 1] != '\r'
    requires forall i | 0 <= i < |returns_| :: returns_[i] == '\r'
    ensures WithoutReturns(TrimStart(pad + (line + returns_))) == line
  {
    TrimsStart(pad, line + returns_);
    DropsReturns(line, returns_);
  }

  lemma CleanedAssigns(raw: string, before: string, value: string)
    requires WithoutReturns(TrimStart(raw)) == before + "=" + value
    requires '=' !in before && (before != "" ==> before[0] != '#')
    ensures Assignment(raw) == Some((TrimEnd(TrimStart(before)), Unquote(value)))
  {
    var line := before + "=" + value;
    assert line[0] == if before == "" then '=' else before[0];
    FindsFirst(before, '=', value);
    assert line[..|before|] == before && line[|before| + 1..] == value;
    hide TrimStart, TrimEnd, WithoutReturns, Unquote, IndexOf;
  }

  /** A line `key=value` assigns the text after its first `=` to the text before
      it: blanks around the key and carriage returns at the end do not matter, a
      value in quotes loses them, and any other value is kept as it is. */
  lemma AssignmentReads(pad: string, key: string, gap: string, value: string, returns_: string)
    requires Blanks(pad) && Blanks(gap) && Trimmed(key) && '=' !in key && (key != "" ==> key[0] != '#')
    requires (forall i | 0 <= i < |returns_| :: returns_[i] == '\r') && (value != "" ==> value[|value| - 1] != '\r')
    ensures var a := Assignment(pad + key + gap + "=" + value + returns_);
            && a.Some? && a.value.0 == key
            && (!Enclosed(value) ==> a.value.1 == value)
            && (forall inner, q | q in {'\"', '\''} && value == [q] + inner + [q] :: a.value.1 == inner)
            && (|value| == 1 && Enclosed(value) ==> a.value.1 == "")
  {
    var raw := pad + key + gap + "=" + value + returns_;
    UnquoteReads(value);
    assert !IsBlank('=');
    assert '=' !in gap;
    hide Unquote, Enclosed, Assignment, TrimStart, TrimEnd, WithoutReturns, IsBlank;
    var line := (if key == "" then "" else key + gap) + "=" + value;
    var lead := if key == "" then pad + gap else pad;
    RawLine(pad, key, gap, value, returns_);
    assert line[0] == if key == "" then '=' else key[0];
    assert line[|line| - 1] == if value == "" then '=' else value[|value| - 1];
    CleanedLine(lead, line, returns_);
    CleanedAssigns(raw, if key == "" then "" else key + gap, value);
    TrimsStart("", if key == "" then "" else key + gap);
    assert key != "" ==> "" + (key + gap) == key + gap;
    TrimsEnd(key, if key == "" then "" else gap);
  }

  lemma RawLine(pad: string, key: string, gap: string, value: string, returns_: string)
    ensures pad + key + gap + "=" + value + returns_
            == (if key == "" then pad + gap else pad)
               + ((if key == "" then "" else key + gap) + "=" + value + returns_)
  {
  }

  /** A line that is blank, a comment, or has no `=` assigns nothing. */
  lemma AssignmentSkips(pad: string, text: string)
    requires Blanks(pad) && (text == "" || text[0] == '#' || ('=' !in text && !IsBlank(text[0])))
    ensures Assignment(pad + text).None?
  {
    TrimsStart(pad, text);
    StillWithout(text, '=');
    FindsNone(WithoutReturns(text), '=');
  }

  lemma {:induction false} StillWithout(s: string, c: char)
    ensures c !in s ==> c !in WithoutReturns(s)
    ensures s != "" && s[0] != '\r' ==> WithoutReturns(s) != "" && WithoutReturns(s)[0] == s[0]
  {
    if s != "" && s[|s| - 1] == '\r' {
      StillWithout(s[..|s| - 1], c);
    }
  }

  /** The value of the last line that assigns the key. */
  ghost function LastAssignment(lines: seq<string>, key: string): Option<string> {
    if lines == [] then None
    else
      var a := Assignment(lines[|lines| - 1]);
      if a.Some? && a.value.0 == key then Some(a.value.1) else LastAssignment(lines[..|lines| - 1], key)
  }

  function Lookup(env: Env, key: string): Option<string> {
    if key in env then Some(env[key]) else None
  }

  /** The environment holds exactly the last assignment of every key. */
  ghost predicate Holds(env: Env, lines: seq<string>) {
    forall key :: Lookup(env, key) == LastAssignment(lines, key)
  }

  lemma HoldsStep(env: Env, lines: seq<string>, line: string)
    requires Holds(env, lines)
    ensures Holds(if Assignment(line).Some? then env[Assignment(line).value.0 := Assignment(line).value.1]
                  else env, lines + [line])
  {
    assert (lines + [line])[..|lines|] == lines;
    var next := if Assignment(line).Some? then env[Assignment(line).value.0 := Assignment(line).value.1] else env;
    hide Assignment;
    forall key ensures Lookup(next, key) == LastAssignment(lines + [line], key) {
      assert Lookup(env, key) == LastAssignment(lines, key);
    }
  }

  method ParseEnvText(text: string) returns (env: Env)
    ensures Holds(env, Split(text))
  {
    hide Assignment, Split, Holds;
    env := map[];
    var lines := Split(text);
    NothingHeld();
    for n := 0 to |lines|
      invariant Holds(env, lines[..n])
    {
      assert lines[..n + 1] == lines[..n] + [lines[n]];
      HoldsStep(env, lines[..n], lines[n]);
      var a := Assignment(lines[n]);
      if a.Some? {
        env := env[a.value.0 := a.value.1];
      }
    }
    assert lines[..|lines|] == lines;
  }

  lemma NothingHeld()
    ensures Holds(map[], [])
  {
  }

  // ---------------------------------------------------------------- several files

  lemma {:induction false} SplitJoined(a: string, b: string)
    ensures Split(a + "\n" + b) == Split(a) + Split(b)
  {
    var text := a + "\n" + b;
    if b == "" {
      assert text[..|text| - 1] == a;
    } else {
      var init, c := b[..|b| - 1], b[|b| - 1];
      assert text[..|text| - 1] == a + "\n" + init && text[|text| - 1] == c;
      SplitJoined(a, init);
      ExtendLast(Split(a), Split(init), c);
    }
  }

  /** A text without a newline is its own only line. */
  lemma {:induction false} SplitsNothing(text: string)
    requires '\n' !in text
    ensures Split(text) == [text]
  {
    if text != "" {
      var init, c := text[..|text| - 1], text[|text| - 1];
      SplitsNothing(init);
      assert c in text && init + [c] == text;
      ExtendOne(init, c);
    }
  }

  lemma ExtendOne(line: string, c: char)
    requires c != '\n'
    ensures Extend([line], c) == [line + [c]]
  {
  }

  lemma ExtendLast(a: seq<string>, b: seq<string>, c: char)
    requires b != []
    ensures Extend(a + b, c) == a + Extend(b, c)
  {
  }

  lemma {:induction false} LastOfBoth(a: seq<string>, b: seq<string>, key: string)
    ensures LastAssignment(a + b, key) == if LastAssignment(b, key).Some? then LastAssignment(b, key)
            else LastAssignment(a, key)
  {
    hide Assignment;
    if b == [] {
      assert a + b == a;
    } else {
      assert (a + b)[..|a + b| - 1] == a + b[..|b| - 1];
      LastOfBoth(a, b[..|b| - 1], key);
    }
  }

  /** Merging the parses of two files is parsing the files joined by a newline. */
  lemma MergeIsConcatenation(x: Env, a: string, y: Env, b: string)
    requires Holds(x, Split(a)) && Holds(y, Split(b))
    ensures Holds(x + y, Split(a + "\n" + b))
  {
    SplitJoined(a, b);
    hide Split;
    forall key ensures Lookup(x + y, key) == LastAssignment(Split(a + "\n" + b), key) {
      LastOfBoth(Split(a), Split(b), key);
      assert Lookup(x, key) == LastAssignment(Split(a), key) && Lookup(y, key) == LastAssignment(Split(b), key);
    }
  }

  /** `[...new Set(paths)]`: the first occurrence of each path, in order. */
  function Distinct(paths: seq<string>): (d: seq<string>)
    ensures forall p :: p in d <==> p in paths
    ensures forall i, j | 0 <= i < j < |d| :: d[i] != d[j]
  {
    if paths == [] then []
    else
      var before, last := Distinct(paths[..|paths| - 1]), paths[|paths| - 1];
      assert forall p :: p in paths <==> p in paths[..|paths| - 1] || p == last;
      if last in before then before else before + [last]
  }

  lemma {:induction false} DistinctAppends(init: seq<string>, last: string)
    ensures Distinct(init + [last]) == if last in init then Distinct(init) else Distinct(init) + [last]
  {
    assert (init + [last])[..|init|] == init;
  }

  /** Of two paths, the one that occurs first is searched first. */
  lemma {:induction false} DistinctKeepsOrder(paths: seq<string>, i: nat, j: nat) returns (m: nat)
    requires i < j < |Distinct(paths)|
    ensures m < |paths| && paths[m] == Distinct(paths)[i] && Distinct(paths)[j] !in paths[..m + 1]
  {
    var init, last := paths[..|paths| - 1], paths[|paths| - 1];
    assert init + [last] == paths;
    DistinctAppends(init, last);
    if j < |Distinct(init)| {
      m := DistinctKeepsOrder(init, i, j);
      assert paths[..m + 1] == init[..m + 1];
    } else {
      assert Distinct(init)[i] in init;
      m :| 0 <= m < |init| && init[m] == Distinct(init)[i];
      assert forall x | x in paths[..m + 1] :: x in init;
    }
  }

  /** The files that exist, in search order. */
  ghost function Existing(paths: seq<string>, files: map<string, string>): seq<string> {
    if paths == [] then []
    else
      var last := paths[|paths| - 1];
      Existing(paths[..|paths| - 1], files) + if last in files then [last] else []
  }

  /** The lines of the files that exist, in search order. */
  ghost function Lines(paths: seq<string>, files: map<string, string>): seq<string> {
    if paths == [] then []
    else
      var last := paths[|paths| - 1];
      Lines(paths[..|paths| - 1], files) + if last in files then Split(files[last]) else []
  }

  /** The contents joined by newlines. */
  ghost function Joined(paths: seq<string>, files: map<string, string>): Option<string> {
    if paths == [] then None
    else
      var before, last := Joined(paths[..|paths| - 1], files), paths[|paths| - 1];
      if last !in files then before else if before.None? then Some(files[last])
         else Some(before.value + "\n" + files[last])
  }

  lemma {:induction false} LinesOfJoined(paths: seq<string>, files: map<string, string>)
    ensures Lines(paths, files) == if Joined(paths, files).Some? then Split(Joined(paths, files).value) else []
  {
    if paths != [] {
      var init, last := paths[..|paths| - 1], paths[|paths| - 1];
      LinesOfJoined(init, files);
      if last in files && Joined(init, files).Some? {
        SplitJoined(Joined(init, files).value, files[last]);
      }
    }
  }

  /** The captured environment is the last assignment of every key in the
      existing files joined by newlines. */
  method CaptureEnvFiles(paths: seq<string>, files: map<string, string>) returns (active: seq<string>, env: Env)
    ensures Holds(env, Lines(Distinct(paths), files))
    ensures active == Existing(Distinct(paths), files)
  {
    hide Holds, Split, Joined;
    env, active := map[], [];
    var distinct := Distinct(paths);
    NothingHeld();
    for n := 0 to |distinct|
      invariant Holds(env, Lines(distinct[..n], files))
      invariant active == Existing(distinct[..n], files)
    {
      var path := distinct[n];
      assert distinct[..n + 1] == distinct[..n] + [path] && distinct[..n + 1][..n] == distinct[..n];
      if path in files {
        var parsed := ParseEnvText(files[path]);
        AddFile(env, Lines(distinct[..n], files), parsed, Split(files[path]));
        active, env := active + [path], env + parsed;
      } else {
        assert Lines(distinct[..n + 1], files) == Lines(distinct[..n], files);
      }
    }
    assert distinct[..|distinct|] == distinct;
  }

  lemma AddFile(x: Env, a: seq<string>, y: Env, b: seq<string>)
    requires Holds(x, a) && Holds(y, b)
    ensures Holds(x + y, a + b)
  {
    forall key ensures Lookup(x + y, key) == LastAssignment(a + b, key) {
      LastOfBoth(a, b, key);
      assert Lookup(x, key) == LastAssignment(a, key) && Lookup(y, key) == LastAssignment(b, key);
    }
  }

  /** The environment is determined by the lines. */
  lemma HoldsUnique(x: Env, y: Env, lines: seq<string>)
    requires Holds(x, lines) && Holds(y, lines)
    ensures x == y
  {
    forall key ensures Lookup(x, key) == Lookup(y, key) {
      assert Lookup(x, key) == LastAssignment(lines, key);
    }
    assert x.Keys == y.Keys by {
      forall key ensures key in x <==> key in y {
        assert Lookup(x, key) == Lookup(y, key);
      }
    }
    assert forall key | key in x :: Lookup(x, key) == Lookup(y, key);
  }
}
