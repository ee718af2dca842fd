/** `load_variables_env`: the `NAME=value` lines of an environment file are
    copied into the process environment, and the Google Maps key is read back
    from it. The file's lines are given as strings, each with its line end;
    the environment is a map from names to values. */
module LoadKey {
  import opened Wrappers

  // ---------------------------------------------------------------------------
  // str.strip and str.split('=', 1)

  /** Python's `str.isspace` for one character: the ASCII whitespace, the
      information separators 0x1C-0x1F, NEL, NBSP and the Unicode spaces and
      line and paragraph separators. */
  predicate IsSpace(c: char) {
    var n := c as int;
    || 9 <= n <= 13 || 28 <= n <= 32
    || n == 0x85 || n == 0xA0 || n == 0x1680
    || 0x2000 <= n <= 0x200A
    || n == 0x2028 || n == 0x2029 || n == 0x202F || n == 0x205F || n == 0x3000
  }

  /** `s.lstrip()`: the suffix of `s` after its leading whitespace. */
  function StripStart(s: string): (r: string)
    ensures |r| <= |s| && r == s[|s| - |r|..]
    ensures forall i :: 0 <= i < |s| - |r| ==> IsSpace(s[i])
    ensures |r| > 0 ==> !IsSpace(r[0])
  {
    if |s| > 0 && IsSpace(s[0]) then StripStart(s[1..]) else s
  }

  /** `s.rstrip()`: the prefix of `s` before its trailing whitespace. */
  function StripEnd(s: string): (r: string)
    ensures |r| <= |s| && r == s[..|r|]
    ensures forall i :: |r| <= i < |s| ==> IsSpace(s[i])
    ensures |r| > 0 ==> !IsSpace(r[|r| - 1])
  {
    if |s| > 0 && IsSpace(s[|s| - 1]) then StripEnd(s[..|s| - 1]) else s
  }

  /** `s.strip()`: `s` without its leading and trailing whitespace. */
  function Strip(s: string): string {
    StripEnd(StripStart(s))
  }

  /** Where the stripped text starts in `s`. */
  function StripOffset(s: string): nat {
    |s| - |StripStart(s)|
  }

  lemma StripIsSlice(s: string)
    ensures StripOffset(s) + |Strip(s)| <= |s|
    ensures Strip(s) == s[StripOffset(s)..StripOffset(s) + |Strip(s)|]
  {
    var a, r, lo := StripStart(s), Strip(s), StripOffset(s);
    assert r == a[..|r|];
    forall i | 0 <= i < |r| ensures r[i] == s[lo + i] {
      assert r[i] == a[i] && a[i] == s[lo + i];
    }
  }

  lemma StripSurroundings(s: string)
    ensures StripOffset(s) + |Strip(s)| <= |s|
    ensures forall i :: 0 <= i < StripOffset(s) ==> IsSpace(s[i])
    ensures forall i :: StripOffset(s) + |Strip(s)| <= i < |s| ==> IsSpace(s[i])
  {
    var a, r, lo := StripStart(s), Strip(s), StripOffset(s);
    forall i | lo + |r| <= i < |s| ensures IsSpace(s[i]) {
      assert s[i] == a[i - lo];
    }
  }

  /** The stripped string is the stretch `s[lo : lo + |r|]` of `s` with only
      whitespace around it and no whitespace at either of its ends; it is
      empty exactly when `s` is all whitespace. */
  lemma StripShape(s: string)
    ensures StripOffset(s) + |Strip(s)| <= |s|
    ensures Strip(s) == s[StripOffset(s)..StripOffset(s) + |Strip(s)|]
    ensures forall i :: 0 <= i < StripOffset(s) ==> IsSpace(s[i])
    ensures forall i :: StripOffset(s) + |Strip(s)| <= i < |s| ==> IsSpace(s[i])
    ensures |Strip(s)| > 0 ==> !IsSpace(Strip(s)[0]) && !IsSpace(Strip(s)[|Strip(s)| - 1])
    ensures Strip(s) == [] <==> forall i :: 0 <= i < |s| ==> IsSpace(s[i])
  {
    StripIsSlice(s);
    StripSurroundings(s);
    var a, r, lo := StripStart(s), Strip(s), StripOffset(s);
    if |r| > 0 {
      assert r[0] == a[0] && !IsSpace(s[lo]);
    }
  }

  /** `s.split(sep, 1)`: `None` when `sep` does not occur (a one-element list,
      which cannot be unpacked into a name and a value), otherwise the text
      before its first occurrence and all the text after it. */
  function SplitFirst(s: string, sep: char): (r: Option<(string, string)>)
    ensures r.None? <==> sep !in s
    ensures r.Some? ==> s == r.value.0 + [sep] + r.value.1 && sep !in r.value.0
  {
    if |s| == 0 then None
    else if s[0] == sep then Some(([], s[1..]))
    else match SplitFirst(s[1..], sep)
      case None => None
      case Some((a, b)) => Some(([s[0]] + a, b))
  }

  // ---------------------------------------------------------------------------
  // One line of the file

  /** What one line does to the environment. */
  datatype LineAction = Skip | Assign(name: string, value: string) | Fail(error: Error)

  /** The body of the loop: a line that is blank once stripped, or whose raw
      text starts with `'#'`, is skipped; otherwise the stripped line is cut at
      its first `'='` (a missing `'='` is a `ValueError` on unpacking), and the
      name and value are assigned as they are, without stripping them again.
      `os.environ` refuses (with a `ValueError`) an empty name and a name or
      value holding a null character. */
  function ParseLine(line: string): (a: LineAction)
    ensures a.Skip? <==> Strip(line) == [] || (|line| > 0 && line[0] == '#')
    ensures a == Fail(MissingSeparator) <==> !a.Skip? && '=' !in Strip(line)
    ensures a.Fail? ==> a.error == MissingSeparator || a.error == IllegalName
    ensures a == Fail(IllegalName) ==> '=' in Strip(line)
    ensures a.Assign? ==>
      && Strip(line) == a.name + ['='] + a.value
      && '=' !in a.name && a.name != []
      && '\0' !in a.name && '\0' !in a.value
  {
    var stripped := Strip(line);
    if stripped == [] || (|line| > 0 && line[0] == '#') then Skip
    else match SplitFirst(stripped, '=')
      case None => Fail(MissingSeparator)
      case Some((name, value)) =>
        if name == [] || '\0' in name || '\0' in value then Fail(IllegalName)
        else Assign(name, value)
  }

  /** Splitting a joined `name=value` at the first `'='` gives back the name
      and the value, whenever the name holds no `'='`. */
  lemma {:induction false} SplitFirstOfJoin(name: string, value: string)
    requires '=' !in name
    ensures SplitFirst(name + ['='] + value, '=') == Some((name, value))
  {
    if |name| > 0 {
      SplitFirstOfJoin(name[1..], value);
      assert (name + ['='] + value)[1..] == name[1..] + ['='] + value;
      assert [name[0]] + name[1..] == name;
    } else {
      assert (name + ['='] + value)[1..] == value;
    }
  }

  /** The converse of `ParseLine`'s contract for assignments: a line that is
      not a comment and whose stripped text is an acceptable `name=value`
      assigns exactly that value to that name. */
  lemma ParseAssignment(line: string, name: string, value: string)
    requires Strip(line) == name + ['='] + value
    requires |line| > 0 && line[0] != '#'
    requires '=' !in name && name != [] && '\0' !in name && '\0' !in value
    ensures ParseLine(line) == Assign(name, value)
  {
    SplitFirstOfJoin(name, value);
  }

  /** The comment test looks at the raw line, so an indented `#` line is read
      as an assignment to a name that starts with `#`. */
  lemma IndentedCommentIsAssigned()
    ensures ParseLine("#KEY=x") == Skip
    ensures ParseLine(" #KEY=x") == Assign("#KEY", "x")
  {
    assert IsSpace(' ') && !IsSpace('#') && !IsSpace('x');
    assert " #KEY=x"[1..] == "#KEY=x";
    assert "#KEY=x" == "#KEY" + ['='] + "x";
    ParseAssignment(" #KEY=x", "#KEY", "x");
  }

  /** Only the first `'='` separates: the value keeps the later ones. */
  lemma ValueKeepsLaterSeparators()
    ensures ParseLine("A=b=c") == Assign("A", "b=c")
  {
    assert !IsSpace('A') && !IsSpace('c');
    assert "A=b=c" == "A" + ['='] + "b=c";
    ParseAssignment("A=b=c", "A", "b=c");
  }

  /** Only the outer whitespace goes: the spaces around the `'='` stay in the
      name and the value. */
  lemma InnerSpacesStay()
    ensures ParseLine("A = b\n") == Assign("A ", " b")
  {
    assert !IsSpace('A') && IsSpace('\n') && !IsSpace('b');
    assert "A = b\n"[..5] == "A = b";
    assert "A = b" == "A " + ['='] + " b";
    ParseAssignment("A = b\n", "A ", " b");
  }

  // ---------------------------------------------------------------------------
  // The whole file

  /** The environment after the lines, and the error that stopped the loop. */
  datatype Loaded = Loaded(env: map<string, string>, error: Option<Error>)

  /** What each line of the file asks for, in order. */
  function Actions(lines: seq<string>): (r: seq<LineAction>)
    ensures |r| == |lines| && forall i :: 0 <= i < |lines| ==> r[i] == ParseLine(lines[i])
  {
    seq(|lines|, i requires 0 <= i < |lines| => ParseLine(lines[i]))
  }

  /** The loop over the actions, front to back, stopping at the first error. */
  function Apply(env: map<string, string>, actions: seq<LineAction>): Loaded
    decreases |actions|
  {
    if |actions| == 0 then Loaded(env, None)
    else match actions[0]
      case Skip => Apply(env, actions[1..])
      case Assign(name, value) => Apply(env[name := value], actions[1..])
      case Fail(e) => Loaded(env, Some(e))
  }

  /** `load_variables_env` over the file's lines. */
  function Load(env: map<string, string>, lines: seq<string>): Loaded {
    Apply(env, Actions(lines))
  }

  lemma {:induction false} ApplyStopsAtFirstFailure(env: map<string, string>, actions: seq<LineAction>, k: nat)
    requires k < |actions| && actions[k].Fail?
    requires forall i :: 0 <= i < k ==> !actions[i].Fail?
    ensures Apply(env, actions[..k]).error == None
    ensures Apply(env, actions) == Loaded(Apply(env, actions[..k]).env, Some(actions[k].error))
    decreases k
  {
    if k > 0 {
      assert actions[1..][..k - 1] == actions[..k][1..];
      assert actions[..k][0] == actions[0];
      match actions[0]
      case Skip => ApplyStopsAtFirstFailure(env, actions[1..], k - 1);
      case Assign(name, value) => ApplyStopsAtFirstFailure(env[name := value], actions[1..], k - 1);
    }
  }

  /** The loading goes on exactly as long as no line fails: the error is the
      first failing line's, with the environment the lines before it left. */
  lemma LoadStopsAtFirstFailure(env: map<string, string>, lines: seq<string>, k: nat)
    requires k < |lines| && ParseLine(lines[k]).Fail?
    requires forall i :: 0 <= i < k ==> !ParseLine(lines[i]).Fail?
    ensures Load(env, lines[..k]).error == None
    ensures Load(env, lines) == Loaded(Load(env, lines[..k]).env, Some(ParseLine(lines[k]).error))
  {
    assert Actions(lines[..k]) == Actions(lines)[..k];
    ApplyStopsAtFirstFailure(env, Actions(lines), k);
  }

  lemma {:induction false} ApplySucceeds(env: map<string, string>, actions: seq<LineAction>)
    ensures Apply(env, actions).error.None? <==> forall i :: 0 <= i < |actions| ==> !actions[i].Fail?
    decreases |actions|
  {
    if |actions| > 0 {
      assert forall i :: 1 <= i < |actions| ==> actions[i] == actions[1..][i - 1];
      match actions[0]
      case Skip => ApplySucceeds(env, actions[1..]);
      case Assign(name, value) => ApplySucceeds(env[name := value], actions[1..]);
      case Fail(e) =>
    }
  }

  /** The file loads without error iff none of its lines fails. */
  lemma LoadSucceeds(env: map<string, string>, lines: seq<string>)
    ensures Load(env, lines).error.None? <==> forall i :: 0 <= i < |lines| ==> !ParseLine(lines[i]).Fail?
  {
    ApplySucceeds(env, Actions(lines));
  }

  /** The value the last action assigning `name` gives it, if any does. */
  function LastAssigned(actions: seq<LineAction>, name: string): Option<string>
    decreases |actions|
  {
    if |actions| == 0 then None
    else match LastAssigned(actions[1..], name)
      case Some(v) => Some(v)
      case None =>
        match actions[0]
        case Assign(n, v) => if n == name then Some(v) else None
        case _ => None
  }

  /** The value `name` gets from the last line of `lines` that assigns it, if
      any line does. */
  function LastAssignment(lines: seq<string>, name: string): Option<string> {
    LastAssigned(Actions(lines), name)
  }

  lemma {:induction false} ApplyIsLastAssigned(env: map<string, string>, actions: seq<LineAction>, name: string)
    requires Apply(env, actions).error.None?
    ensures name in Apply(env, actions).env <==> name in env || LastAssigned(actions, name).Some?
    ensures name in Apply(env, actions).env ==>
      Apply(env, actions).env[name] == if LastAssigned(actions, name).Some? then LastAssigned(actions, name).value else env[name]
    decreases |actions|
  {
    if |actions| > 0 {
      match actions[0]
      case Skip => ApplyIsLastAssigned(env, actions[1..], name);
      case Assign(n, v) => ApplyIsLastAssigned(env[n := v], actions[1..], name);
    }
  }

  /** A later line with the same name overwrites an earlier one: after a
      successful load, a name holds the value of its last assignment, or its
      value from before the load when no line assigns it. */
  lemma LoadIsLastAssignment(env: map<string, string>, lines: seq<string>, name: string)
    requires Load(env, lines).error.None?
    ensures name in Load(env, lines).env <==> name in env || LastAssignment(lines, name).Some?
    ensures name in Load(env, lines).env ==>
      Load(env, lines).env[name] == if LastAssignment(lines, name).Some? then LastAssignment(lines, name).value else env[name]
  {
    ApplyIsLastAssigned(env, Actions(lines), name);
  }

  /** The environment the script sees, with `load_variables_env` as a method. */
  class Environ {
    /** `os.environ` */
    var vars: map<string, string>

    constructor (vars: map<string, string>)
      ensures this.vars == vars
    {
      this.vars := vars;
    }

    /** `load_variables_env(file)` over the file's lines: the variables are
        assigned in order, and the first failing line stops the loop with the
        earlier assignments kept. */
    method LoadVariablesEnv(lines: seq<string>) returns (error: Option<Error>)
      modifies this
      ensures Loaded(vars, error) == Load(old(vars), lines)
    {
      error := None;
      ghost var actions := Actions(lines);
      var i := 0;
      while i < |lines|
        invariant 0 <= i <= |lines|
        invariant Load(old(vars), lines) == Apply(vars, actions[i..])
      {
        assert actions[i..][1..] == actions[i + 1..];
        var action := ParseLine(lines[i]);
        assert action == actions[i..][0];
        match action {
          case Skip =>
          case Assign(name, value) =>
            vars := vars[name := value];
          case Fail(e) =>
            return Some(e);
        }
        i := i + 1;
      }
    }
  }

  const GoogleMapsApiKey: string := "GOOGLE_MAPS_API_KEY"

  /** `os.environ.get('GOOGLE_MAPS_API_KEY')`: `None` when the key is absent. */
  function ApiKey(env: map<string, string>): (r: Option<string>)
    ensures r.None? <==> GoogleMapsApiKey !in env
    ensures r.Some? ==> r.value == env[GoogleMapsApiKey]
  {
    if GoogleMapsApiKey in env then Some(env[GoogleMapsApiKey]) else None
  }

  /** After the file loads without error, the key is the last value the file
      gives it, or the one the process already had, or `None` when neither
      sets it. */
  lemma ApiKeyAfterLoad(env: map<string, string>, lines: seq<string>)
    requires Load(env, lines).error.None?
    ensures ApiKey(Load(env, lines).env) ==
      if LastAssignment(lines, GoogleMapsApiKey).Some? then LastAssignment(lines, GoogleMapsApiKey) else ApiKey(env)
  {
    LoadIsLastAssignment(env, lines, GoogleMapsApiKey);
  }
}
