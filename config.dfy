/** The back end's `.env` loader (backend/config/config.go): the file is read
    line by line, and every `KEY=VALUE` line sets its variable in the process
    environment unless that variable already holds a non-empty value.  The
    file's content is a parameter (`None` when it cannot be opened); the
    process environment is the map `env` of a `Process` object. */
module Config {
  import opened Text

  // ------------------------------------------------------------------ lines

  /** `bufio.ScanLines` drops one carriage return before the newline. */
  function DropCR(l: string): (r: string)
    ensures EndsWith(l, "\r") ==> l == r + "\r"
    ensures !EndsWith(l, "\r") ==> r == l
  {
    if |l| > 0 && l[|l| - 1] == '\r' then l[..|l| - 1] else l
  }

  /** The pieces between newlines, without the empty piece a final newline
      (or an empty file) leaves. */
  function Pieces(content: string): (kept: seq<string>)
    ensures forall i :: 0 <= i < |kept| ==> '\n' !in kept[i]
  {
    var pieces := Split(content, '\n');
    if pieces[|pieces| - 1] == "" then pieces[..|pieces| - 1] else pieces
  }

  /** The lines `bufio.Scanner` yields: the pieces, each without its
      trailing carriage return. */
  function ScanLines(content: string): (lines: seq<string>)
    ensures |lines| == |Pieces(content)|
    ensures forall i :: 0 <= i < |lines| ==> lines[i] == DropCR(Pieces(content)[i])
  {
    var kept := Pieces(content);
    seq(|kept|, i requires 0 <= i < |kept| => DropCR(kept[i]))
  }

  lemma PiecesOfJoin(ls: seq<string>)
    requires forall i :: 0 <= i < |ls| ==> '\n' !in ls[i]
    ensures Pieces(Join(ls + [""], '\n')) == ls
  {
    var parts := ls + [""];
    assert forall i :: 0 <= i < |parts| ==> '\n' !in parts[i];
    SplitOfJoin(parts, '\n');
    assert parts[..|parts| - 1] == ls;
  }

  /** Lines written one after another, each ended by a newline, are scanned
      back as the same lines. */
  lemma ScanLinesOfJoin(ls: seq<string>)
    requires forall i :: 0 <= i < |ls| ==> '\n' !in ls[i] && !EndsWith(ls[i], "\r")
    ensures ScanLines(Join(ls + [""], '\n')) == ls
  {
    PiecesOfJoin(ls);
    var r := ScanLines(Join(ls + [""], '\n'));
    assert forall i :: 0 <= i < |r| ==> r[i] == ls[i];
  }

  // ------------------------------------------------------------- one line

  datatype Entry = Entry(key: string, value: string)

  /** Lines the loop passes over before splitting: blank ones (only white
      space) and those whose very first character is '#'. */
  predicate Skipped(line: string) {
    GoTrimSpace(line) == "" || StartsWith(line, "#")
  }

  lemma FindCharIff(s: string, c: char)
    ensures FindFrom(s, [c], 0).Some? <==> c in s
  {
    if c in s {
      var j :| 0 <= j < |s| && s[j] == c;
      assert s[j..j + 1] == [c];
      assert OccursAt(s, [c], j);
    }
    var r := FindFrom(s, [c], 0);
    if r.Some? {
      assert s[r.value..r.value + 1] == [c];
      assert s[r.value] == s[r.value..r.value + 1][0];
    }
  }

  /** No separator comes before the first one. */
  lemma FoundFirst(s: string, c: char, i: nat)
    requires FindFrom(s, [c], 0) == Some(i)
    ensures c !in s[..i]
  {
    forall j | 0 <= j < i ensures s[j] != c {
      assert !OccursAt(s, [c], j);
      assert s[j..j + 1] == [s[j]];
    }
  }

  /** One line of the file: `strings.SplitN(line, "=", 2)` cuts at the first
      '=' only, and both halves are trimmed with `strings.TrimSpace`. */
  function ParseLine(line: string): (r: Option<Entry>)
    ensures r.None? <==> Skipped(line) || '=' !in line
    ensures r.Some? ==> '=' !in r.value.key
  {
    assert FindFrom(line, "=", 0).Some? <==> '=' in line by { FindCharIff(line, '='); }
    if Skipped(line) then None
    else match FindFrom(line, "=", 0)
      case None => None
      case Some(i) =>
        FoundFirst(line, '=', i);
        TrimKeepsOut(line[..i], IsGoSpace, '=');
        Some(Entry(GoTrimSpace(line[..i]), GoTrimSpace(line[i + 1..])))
  }

  /** The three outcomes of `ParseLine`, in the order the loop tests them. */
  lemma ParseLineSteps(line: string)
    ensures Skipped(line) ==> ParseLine(line).None?
    ensures !Skipped(line) && FindFrom(line, "=", 0).None? ==> ParseLine(line).None?
    ensures !Skipped(line) && FindFrom(line, "=", 0).Some? ==>
      var i := FindFrom(line, "=", 0).value;
      ParseLine(line) == Some(Entry(GoTrimSpace(line[..i]), GoTrimSpace(line[i + 1..])))
  {
  }

  /** A line `a=b` whose key part holds no '=' gives the trimmed `a` and the
      trimmed `b`, whatever `b` holds, '=' included. */
  lemma ParseLineOf(a: string, b: string)
    requires '=' !in a
    requires !Skipped(a + "=" + b)
    ensures ParseLine(a + "=" + b) == Some(Entry(GoTrimSpace(a), GoTrimSpace(b)))
  {
    var line := a + "=" + b;
    FindAfterPrefix(a, b, '=');
    ParseLineSteps(line);
    assert line[..|a|] == a && line[|a| + 1..] == b;
  }

  // ---------------------------------------------------------- environment

  /** `os.Getenv`: an unset variable reads as the empty string. */
  function Getenv(env: map<string, string>, key: string): string {
    if key in env then env[key] else ""
  }

  /** The `os.Setenv` calls that succeed: a non-empty key without '=' or NUL,
      a value without NUL.  The loader ignores the error of the others. */
  predicate SetenvAccepts(key: string, value: string) {
    key != "" && '=' !in key && '\0' !in key && '\0' !in value
  }

  function Setenv(env: map<string, string>, key: string, value: string): (r: map<string, string>)
    ensures SetenvAccepts(key, value) ==> key in r && r[key] == value
    ensures forall k :: k != key ==> (k in r <==> k in env)
    ensures forall k :: k != key && k in env ==> r[k] == env[k]
    ensures !SetenvAccepts(key, value) ==> r == env
  {
    if SetenvAccepts(key, value) then env[key := value] else env
  }

  /** The effect of one line: set the variable only while it reads empty. */
  function ApplyLine(env: map<string, string>, line: string): map<string, string> {
    match ParseLine(line)
    case None => env
    case Some(e) => if Getenv(env, e.key) == "" then Setenv(env, e.key, e.value) else env
  }

  /** `step` applied to the lines in order, starting from `env`. */
  function Fold(env: map<string, string>, lines: seq<string>,
                step: (map<string, string>, string) -> map<string, string>): map<string, string>
    decreases |lines|
  {
    if lines == [] then env
    else step(Fold(env, lines[..|lines| - 1], step), lines[|lines| - 1])
  }

  /** The environment after the lines of the file. */
  function ApplyLines(env: map<string, string>, lines: seq<string>): map<string, string> {
    Fold(env, lines, ApplyLine)
  }

  lemma {:induction false} FoldConcat(env: map<string, string>, a: seq<string>, b: seq<string>,
                                      step: (map<string, string>, string) -> map<string, string>)
    ensures Fold(env, a + b, step) == Fold(Fold(env, a, step), b, step)
    decreases |b|
  {
    if b == [] {
      assert a + b == a;
    } else {
      FoldConcat(env, a, b[..|b| - 1], step);
      assert (a + b)[..|a + b| - 1] == a + b[..|b| - 1];
    }
  }

  /** One more line of the fold. */
  lemma FoldStep(env: map<string, string>, lines: seq<string>, i: nat,
                 step: (map<string, string>, string) -> map<string, string>)
    requires i < |lines|
    ensures Fold(env, lines[..i + 1], step) == step(Fold(env, lines[..i], step), lines[i])
  {
    assert lines[..i + 1][..i] == lines[..i];
  }

  /** The fold around one line: the lines before it, the line, the lines after. */
  lemma FoldSplitAt(env: map<string, string>, lines: seq<string>, i: nat,
                    step: (map<string, string>, string) -> map<string, string>)
    requires i < |lines|
    ensures Fold(env, lines, step) == Fold(step(Fold(env, lines[..i], step), lines[i]), lines[i + 1..], step)
  {
    var upto := lines[..i + 1];
    assert upto[..i] == lines[..i];
    assert upto + lines[i + 1..] == lines;
    FoldConcat(env, upto, lines[i + 1..], step);
  }

  /** A property of the environment that every step keeps, for the lines
      that satisfy `ok`, holds after all of them. */
  lemma {:induction false} FoldKeeps(env: map<string, string>, lines: seq<string>,
                                     step: (map<string, string>, string) -> map<string, string>,
                                     p: map<string, string> -> bool, ok: string -> bool)
    requires p(env)
    requires forall j :: 0 <= j < |lines| ==> ok(lines[j])
    requires forall e, l :: p(e) && ok(l) ==> p(step(e, l))
    ensures p(Fold(env, lines, step))
    decreases |lines|
  {
    if lines != [] {
      FoldKeeps(env, lines[..|lines| - 1], step, p, ok);
    }
  }

  /** A line sets `key` to a non-empty value when the variable still reads empty. */
  predicate Sets(line: string, key: string) {
    var e := ParseLine(line);
    e.Some? && e.value.key == key && e.value.value != "" && SetenvAccepts(key, e.value.value)
  }

  lemma KeepStep(env: map<string, string>, line: string, key: string)
    requires Getenv(env, key) != ""
    ensures Getenv(ApplyLine(env, line), key) == Getenv(env, key)
  {
  }

  lemma EmptyStep(env: map<string, string>, line: string, key: string)
    requires Getenv(env, key) == "" && !Sets(line, key)
    ensures Getenv(ApplyLine(env, line), key) == ""
  {
  }

  lemma SetsStep(env: map<string, string>, line: string, key: string)
    requires Getenv(env, key) == "" && Sets(line, key)
    ensures Getenv(ApplyLine(env, line), key) == ParseLine(line).value.value
  {
  }

  lemma UnnamedStep(env: map<string, string>, line: string, key: string)
    requires ParseLine(line).None? || ParseLine(line).value.key != key
    ensures key in ApplyLine(env, line) <==> key in env
    ensures key in env ==> ApplyLine(env, line)[key] == env[key]
  {
  }

  /** A variable that already reads non-empty is never overwritten. */
  lemma KeepsSetVariables(env: map<string, string>, lines: seq<string>, key: string)
    requires Getenv(env, key) != ""
    ensures Getenv(ApplyLines(env, lines), key) == Getenv(env, key)
  {
    var v := Getenv(env, key);
    forall e, l | Getenv(e, key) == v
      ensures Getenv(ApplyLine(e, l), key) == v
    {
      KeepStep(e, l, key);
    }
    FoldKeeps(env, lines, ApplyLine, e => Getenv(e, key) == v, l => true);
  }

  /** A variable no line sets to a non-empty value keeps reading empty. */
  lemma StaysEmpty(env: map<string, string>, lines: seq<string>, key: string)
    requires Getenv(env, key) == ""
    requires forall j :: 0 <= j < |lines| ==> !Sets(lines[j], key)
    ensures Getenv(ApplyLines(env, lines), key) == ""
  {
    forall e, l | Getenv(e, key) == "" && !Sets(l, key)
      ensures Getenv(ApplyLine(e, l), key) == ""
    {
      EmptyStep(e, l, key);
    }
    FoldKeeps(env, lines, ApplyLine, e => Getenv(e, key) == "", l => !Sets(l, key));
  }

  /** A variable no line names is left exactly as it was. */
  lemma UnnamedUnchanged(env: map<string, string>, lines: seq<string>, key: string)
    requires forall j :: 0 <= j < |lines| ==> ParseLine(lines[j]).None? || ParseLine(lines[j]).value.key != key
    ensures key in ApplyLines(env, lines) <==> key in env
    ensures key in env ==> ApplyLines(env, lines)[key] == env[key]
  {
    var same := e => (key in e <==> key in env) && (key in env ==> e[key] == env[key]);
    var other := l => ParseLine(l).None? || ParseLine(l).value.key != key;
    forall e, l | same(e) && other(l)
      ensures same(ApplyLine(e, l))
    {
      UnnamedStep(e, l, key);
    }
    FoldKeeps(env, lines, ApplyLine, same, other);
  }

  /** For a variable that reads empty beforehand, the first line that sets it
      to a non-empty value decides its final value. */
  lemma FirstEntryWins(env: map<string, string>, lines: seq<string>, i: nat, key: string)
    requires Getenv(env, key) == ""
    requires i < |lines| && Sets(lines[i], key)
    requires forall j :: 0 <= j < i ==> !Sets(lines[j], key)
    ensures Getenv(ApplyLines(env, lines), key) == ParseLine(lines[i]).value.value
  {
    FoldSplitAt(env, lines, i, ApplyLine);
    var before := lines[..i];
    forall j | 0 <= j < |before| ensures !Sets(before[j], key) {
      assert before[j] == lines[j];
    }
    StaysEmpty(env, before, key);
    var e1 := Fold(env, before, ApplyLine);
    SetsStep(e1, lines[i], key);
    KeepsSetVariables(ApplyLine(e1, lines[i]), lines[i + 1..], key);
  }

  // -------------------------------------------------------------- loading

  /** A line that yields no entry leaves the environment as it was. */
  lemma NoEntryStep(env: map<string, string>, line: string)
    requires ParseLine(line).None?
    ensures ApplyLine(env, line) == env
  {
  }

  /** A line that yields an entry sets its variable only while it reads empty. */
  lemma EntryStep(env: map<string, string>, line: string, e: Entry)
    requires ParseLine(line) == Some(e)
    ensures ApplyLine(env, line) == if Getenv(env, e.key) == "" then Setenv(env, e.key, e.value) else env
  {
  }

  /** The process environment `LoadEnv` writes into. */
  class Process {
    var env: map<string, string>

    constructor(initial: map<string, string>)
      ensures env == initial
    {
      env := initial;
    }

    /** `LoadEnv`: a file that cannot be opened is not an error and changes
        nothing; otherwise each scanned line is applied in order. */
    method LoadEnv(dotenv: Option<string>)
      modifies this
      ensures dotenv.None? ==> env == old(env)
      ensures dotenv.Some? ==> env == ApplyLines(old(env), ScanLines(dotenv.value))
    {
      if dotenv.None? {
        return;
      }
      var lines := ScanLines(dotenv.value);
      ghost var env0 := env;
      var i := 0;
      while i < |lines|
        invariant 0 <= i <= |lines|
        invariant env == Fold(env0, lines[..i], ApplyLine)
      {
        FoldStep(env0, lines, i, ApplyLine);
        LoadLine(lines[i]);
        i := i + 1;
      }
      assert lines[..|lines|] == lines;
    }

    /** The body of the loop in `LoadEnv`, for one line. */
    method LoadLine(line: string)
      modifies this
      ensures env == ApplyLine(old(env), line)
    {
      ParseLineSteps(line);
      if GoTrimSpace(line) == "" || StartsWith(line, "#") {
        NoEntryStep(env, line);
        return;
      }
      var parts := FindFrom(line, "=", 0);
      if parts.None? {
        NoEntryStep(env, line);
        return;
      }
      var key := GoTrimSpace(line[..parts.value]);
      var value := GoTrimSpace(line[parts.value + 1..]);
      EntryStep(env, line, Entry(key, value));
      if Getenv(env, key) == "" {
        env := Setenv(env, key, value);
      }
    }
  }
}
