/** The path-syntax translator: a single left-to-right scan with three states that
    rewrites the framework's route syntax (`:name`, `::`, `(regex)`, `*`) into
    OpenAPI brace templating. `Run` is the scan as a function of its state and the
    remaining input; `FormatParamUrl` is the loop, proved to compute `Translate`. */
module ParamUrl {
  import opened Strings

  /** The ASCII characters from `first` to `last`, in order. */
  function Span(first: char, last: char): string
    requires first <= last <= '~'
    decreases last as int - first as int
  {
    if first == last then [first] else [first] + Span((first as int + 1) as char, last)
  }

  lemma {:induction false} InSpan(first: char, last: char, c: char)
    requires first <= last <= '~'
    ensures c in Span(first, last) <==> first <= c <= last
    decreases last as int - first as int
  {
    if first != last {
      InSpan((first as int + 1) as char, last, c);
    }
  }

  /** The characters a colon parameter name may contain: a-z, A-Z, 0-9 and `_`. */
  const NameAlphabet := Span('a', 'z') + Span('A', 'Z') + Span('0', '9') + "_"

  predicate IsNameChar(c: char) {
    'a' <= c <= 'z' || 'A' <= c <= 'Z' || '0' <= c <= '9' || c == '_'
  }

  /** `IsNameChar` is membership in the alphabet. */
  lemma NameAlphabetIsNameChars(c: char)
    ensures c in NameAlphabet <==> IsNameChar(c)
  {
    InSpan('a', 'z', c);
    InSpan('A', 'Z', c);
    InSpan('0', '9', c);
  }

  predicate IsName(s: string) {
    forall i :: 0 <= i < |s| ==> IsNameChar(s[i])
  }

  /** `Skip` is the source's "skip"/default state. */
  datatype Mode = Skip | Colon | Regexp

  /** The scanner's variables other than the output: state, pending name, nesting depth,
      and the count of anonymous groups seen so far. */
  datatype Scanner = Scanner(mode: Mode, param: string, level: int, regexp: nat)

  /** A scanner in the default state whose counter stands at `k`. */
  function Fresh(k: nat): Scanner {
    Scanner(Skip, "", 0, k)
  }

  function Braced(name: string): string {
    "{" + name + "}"
  }

  /** The name given to the `n`-th anonymous group. */
  function RegexpName(n: nat): string {
    "regexp" + NatToString(n)
  }

  /** Clean-up at end of input: only a colon state with a non-empty name writes `{name}`. */
  function Flush(sc: Scanner): string {
    if sc.mode == Colon && sc.param != "" then Braced(sc.param) else ""
  }

  /** The nesting depth after reading `c` inside a group. */
  function Bump(level: int, c: char): int {
    if c == '(' then level + 1 else if c == ')' then level - 1 else level
  }

  /** What one step does: the next scanner state, the text appended to the output, and
      how many characters were consumed. */
  datatype Move = Move(next: Scanner, out: string, width: nat)

  /** One step of the scan at the head of `rest` (two characters for `::`, otherwise one). */
  function Step(sc: Scanner, rest: string): (r: Move)
    requires rest != []
    ensures 1 <= r.width <= |rest|
  {
    var c := rest[0];
    match sc.mode
    case Colon =>
      if IsNameChar(c) then Move(sc.(param := sc.param + [c]), "", 1)
      else if c == '(' then Move(sc.(mode := Regexp, level := sc.level + 1), "", 1)
      else Move(Scanner(Skip, "", sc.level, sc.regexp), Braced(sc.param) + [c], 1)
    case Regexp =>
      var level := Bump(sc.level, c);
      if level == 0 then
        var count := if sc.param == "" then sc.regexp + 1 else sc.regexp;
        var name := if sc.param == "" then RegexpName(count) else sc.param;
        Move(Scanner(Skip, "", level, count), Braced(name), 1)
      else Move(sc.(level := level), "", 1)
    case Skip =>
      if c == ':' && |rest| > 1 && rest[1] == ':' then Move(sc, ":", 2)
      else if c == ':' then Move(sc.(mode := Colon), "", 1)
      else if c == '(' then Move(sc.(mode := Regexp, level := sc.level + 1), "", 1)
      else if c == '*' then Move(sc, "{*}", 1)
      else Move(sc, [c], 1)
  }

  /** The output the scan of `rest` appends from scanner state `sc`, the clean-up included. */
  function Run(sc: Scanner, rest: string): string
    decreases |rest|
  {
    if rest == [] then Flush(sc)
    else
      var m := Step(sc, rest);
      m.out + Run(m.next, rest[m.width..])
  }

  /** `formatParamUrl`: every call starts a fresh scanner, so the anonymous-group
      counter restarts at zero. */
  function Translate(s: string): string {
    Run(Fresh(0), s)
  }

  lemma Associative(a: string, b: string, c: string)
    ensures a + b + c == a + (b + c)
  {
  }

  /** The scan as the source writes it: one loop over the input updating five variables,
      with an extra step over the second character of `::`. */
  method FormatParamUrl(str: string) returns (path: string)
    ensures path == Translate(str)
  {
    var mode := Skip;
    var param := "";
    var level: int := 0;
    var regexp: nat := 0;
    path := "";
    var i := 0;
    assert path + Translate(str) == Translate(str);
    while i < |str|
      invariant 0 <= i <= |str|
      invariant path + Run(Scanner(mode, param, level, regexp), str[i..]) == Translate(str)
      decreases |str| - i
    {
      ghost var m := Step(Scanner(mode, param, level, regexp), str[i..]);
      ghost var i0, path0 := i, path;
      var c := str[i];
      assert str[i..][0] == c;
      match mode {
      case Colon =>
        if IsNameChar(c) {
          param := param + [c];
        } else if c == '(' {
          mode := Regexp;
          level := level + 1;
        } else {
          mode := Skip;
          path := path + Braced(param);
          path := path + [c];
          param := "";
        }
      case Regexp =>
        if c == '(' {
          level := level + 1;
        } else if c == ')' {
          level := level - 1;
        }
        if level == 0 {
          mode := Skip;
          if param == "" {
            regexp := regexp + 1;
            param := RegexpName(regexp);
          }
          path := path + Braced(param);
          param := "";
        }
      case Skip =>
        if c == ':' && i + 1 < |str| && str[i + 1] == ':' {
          path := path + [c];
          i := i + 1;
        } else if c == ':' {
          mode := Colon;
        } else if c == '(' {
          mode := Regexp;
          level := level + 1;
        } else if c == '*' {
          path := path + "{*}";
        } else {
          path := path + [c];
        }
      }
      i := i + 1;
      assert Scanner(mode, param, level, regexp) == m.next && i == i0 + m.width;
      assert path == path0 + m.out;
      assert str[i..] == str[i0..][m.width..];
      Associative(path0, m.out, Run(m.next, str[i..]));
    }
    if mode == Colon && param != "" {
      path := path + Braced(param);
    } else {
      assert path + "" == path;
    }
  }

  // ----- Properties of the scan -----

  /** Text without `:`, `(` or `*` is copied verbatim. */
  predicate IsPlain(s: string) {
    forall i :: 0 <= i < |s| ==> s[i] != ':' && s[i] != '(' && s[i] != '*'
  }

  /** Plain text in front of the rest of a path is copied, and the scan goes on as if
      the path started after it. */
  lemma {:induction false} RunPlainThen(k: nat, p: string, rest: string)
    requires IsPlain(p)
    ensures Run(Fresh(k), p + rest) == p + Run(Fresh(k), rest)
    decreases |p|
  {
    if p != [] {
      var s := p + rest;
      assert s[0] == p[0] && s[1..] == p[1..] + rest;
      assert Step(Fresh(k), s) == Move(Fresh(k), [p[0]], 1);
      RunPlainThen(k, p[1..], rest);
      assert [p[0]] + (p[1..] + Run(Fresh(k), rest)) == p + Run(Fresh(k), rest);
    } else {
      assert p + rest == rest && p + Run(Fresh(k), rest) == Run(Fresh(k), rest);
    }
  }

  /** A path with no parameter syntax is returned unchanged. */
  lemma PlainPathUnchanged(s: string)
    requires IsPlain(s)
    ensures Translate(s) == s
  {
    RunPlainThen(0, s, []);
    assert s + [] == s && s + "" == s;
  }

  /** `::` emits one literal colon and consumes both characters: no parameter starts. */
  lemma DoubleColonIsLiteral(k: nat, rest: string)
    ensures Run(Fresh(k), "::" + rest) == ":" + Run(Fresh(k), rest)
  {
    var s := "::" + rest;
    assert s[0] == ':' && s[1] == ':' && s[2..] == rest;
    assert Step(Fresh(k), s) == Move(Fresh(k), ":", 2);
  }

  /** `*` in the default state becomes the literal token `{*}`. */
  lemma StarIsWildcard(k: nat, rest: string)
    ensures Run(Fresh(k), "*" + rest) == "{*}" + Run(Fresh(k), rest)
  {
    var s := "*" + rest;
    assert s[0] == '*' && s[1..] == rest;
    assert Step(Fresh(k), s) == Move(Fresh(k), "{*}", 1);
  }

  /** In the colon state, name characters accumulate into the pending name. */
  lemma {:induction false} ColonAccumulates(k: nat, pending: string, name: string, tail: string)
    requires IsName(name)
    ensures Run(Scanner(Colon, pending, 0, k), name + tail) == Run(Scanner(Colon, pending + name, 0, k), tail)
    decreases |name|
  {
    if name != [] {
      var s := name + tail;
      var sc := Scanner(Colon, pending + [name[0]], 0, k);
      assert s[0] == name[0] && s[1..] == name[1..] + tail;
      assert IsNameChar(s[0]);
      assert Step(Scanner(Colon, pending, 0, k), s) == Move(sc, "", 1);
      assert "" + Run(sc, s[1..]) == Run(sc, s[1..]);
      ColonAccumulates(k, pending + [name[0]], name[1..], tail);
      assert pending + [name[0]] + name[1..] == pending + name;
    } else {
      assert name + tail == tail && pending + name == pending;
    }
  }

  /** The colon state ends at a character that is neither a name character nor `(`:
      `{name}` and that character are written, and the default state resumes after it. */
  lemma ColonCloses(k: nat, name: string, c: char, rest: string)
    requires !IsNameChar(c) && c != '('
    ensures Run(Scanner(Colon, name, 0, k), [c] + rest) == Braced(name) + [c] + Run(Fresh(k), rest)
  {
    var s := [c] + rest;
    assert s[0] == c && s[1..] == rest;
    assert Step(Scanner(Colon, name, 0, k), s) == Move(Fresh(k), Braced(name) + [c], 1);
  }

  /** Entering the colon state: a single `:` not followed by another `:`. */
  lemma ColonOpens(k: nat, rest: string)
    requires rest == [] || rest[0] != ':'
    ensures Run(Fresh(k), ":" + rest) == Run(Scanner(Colon, "", 0, k), rest)
  {
    var s := ":" + rest;
    assert s[0] == ':' && s[1..] == rest;
    assert Step(Fresh(k), s) == Move(Scanner(Colon, "", 0, k), "", 1);
    assert "" + Run(Scanner(Colon, "", 0, k), rest) == Run(Scanner(Colon, "", 0, k), rest);
  }

  /** A colon parameter becomes `{name}`; the character ending the name is appended
      verbatim and is not re-examined (so `:a*` gives `{a}*` and `:a:b` gives `{a}:b`).
      A colon followed directly by such a character yields the empty braces `{}`,
      unless that character is a second colon. */
  lemma ColonParameter(k: nat, name: string, c: char, rest: string)
    requires IsName(name) && !IsNameChar(c) && c != '('
    requires name == "" ==> c != ':'
    ensures Run(Fresh(k), ":" + name + [c] + rest) == Braced(name) + [c] + Run(Fresh(k), rest)
  {
    var t := name + ([c] + rest);
    assert ":" + name + [c] + rest == ":" + t;
    assert t[0] != ':' by {
      if name == [] { assert t[0] == c; } else { assert t[0] == name[0] && IsNameChar(name[0]); }
    }
    ColonOpens(k, t);
    ColonAccumulates(k, "", name, [c] + rest);
    assert "" + name == name;
    ColonCloses(k, name, c, rest);
  }

  /** At end of input an open colon name is flushed; a bare trailing colon adds nothing. */
  lemma TrailingColonParameter(k: nat, name: string)
    requires IsName(name)
    ensures Run(Fresh(k), ":" + name) == if name == "" then "" else Braced(name)
  {
    assert name == [] || name[0] != ':' by {
      if name != [] { assert IsNameChar(name[0]); }
    }
    ColonOpens(k, name);
    ColonAccumulates(k, "", name, []);
    assert name + [] == name && "" + name == name;
  }

  /** `s` keeps a group opened at depth `level` open throughout: depth never hits zero. */
  predicate StaysOpen(level: int, s: string)
    decreases |s|
  {
    s == [] || (Bump(level, s[0]) != 0 && StaysOpen(Bump(level, s[0]), s[1..]))
  }

  /** The depth after reading `s` inside a group. */
  function LevelAfter(level: int, s: string): int
    decreases |s|
  {
    if s == [] then level else LevelAfter(Bump(level, s[0]), s[1..])
  }

  /** The body of a group: it never closes the group and leaves the depth where it found it. */
  predicate IsGroupBody(body: string) {
    StaysOpen(1, body) && LevelAfter(1, body) == 1
  }

  /** Inside a group everything is dropped; only the depth moves. */
  lemma {:induction false} RunInsideGroup(sc: Scanner, body: string, tail: string)
    requires sc.mode == Regexp && StaysOpen(sc.level, body)
    ensures Run(sc, body + tail) == Run(sc.(level := LevelAfter(sc.level, body)), tail)
    decreases |body|
  {
    if body != [] {
      var s := body + tail;
      var sc' := sc.(level := Bump(sc.level, body[0]));
      assert s[0] == body[0] && s[1..] == body[1..] + tail;
      assert Bump(sc.level, body[0]) != 0;
      assert Step(sc, s) == Move(sc', "", 1);
      assert "" + Run(sc', s[1..]) == Run(sc', s[1..]);
      RunInsideGroup(sc', body[1..], tail);
    } else {
      assert body + tail == tail;
    }
  }

  /** Entering a group from the default state. */
  lemma GroupOpens(k: nat, rest: string)
    ensures Run(Fresh(k), "(" + rest) == Run(Scanner(Regexp, "", 1, k), rest)
  {
    var s := "(" + rest;
    assert s[0] == '(' && s[1..] == rest;
    assert Step(Fresh(k), s) == Move(Scanner(Regexp, "", 1, k), "", 1);
    assert "" + Run(Scanner(Regexp, "", 1, k), rest) == Run(Scanner(Regexp, "", 1, k), rest);
  }

  /** The `)` that brings the depth back to zero closes the group. */
  lemma GroupCloses(k: nat, name: string, rest: string)
    ensures Run(Scanner(Regexp, name, 1, k), ")" + rest)
         == if name == "" then Braced(RegexpName(k + 1)) + Run(Fresh(k + 1), rest)
            else Braced(name) + Run(Fresh(k), rest)
  {
    var s := ")" + rest;
    assert s[0] == ')' && s[1..] == rest;
  }

  /** A group that is never closed swallows the rest of the input. */
  lemma UnterminatedGroup(k: nat, body: string)
    requires StaysOpen(1, body)
    ensures Run(Fresh(k), "(" + body) == ""
  {
    GroupOpens(k, body);
    RunInsideGroup(Scanner(Regexp, "", 1, k), body, []);
    assert body + [] == body;
  }

  /** An anonymous group `(...)` becomes `{regexpN}`, N being the counter plus one;
      the counter moves on for later groups of the same path. */
  lemma AnonymousGroup(k: nat, body: string, rest: string)
    requires IsGroupBody(body)
    ensures Run(Fresh(k), "(" + body + ")" + rest) == Braced(RegexpName(k + 1)) + Run(Fresh(k + 1), rest)
  {
    assert "(" + body + ")" + rest == "(" + (body + (")" + rest));
    GroupOpens(k, body + (")" + rest));
    RunInsideGroup(Scanner(Regexp, "", 1, k), body, ")" + rest);
    GroupCloses(k, "", rest);
  }

  /** A named group `:id(...)` becomes `{id}`: the regex is dropped, nested
      parentheses are balanced, and the anonymous counter does not move. */
  lemma NamedGroup(k: nat, name: string, body: string, rest: string)
    requires IsName(name) && name != "" && IsGroupBody(body)
    ensures Run(Fresh(k), ":" + name + "(" + body + ")" + rest) == Braced(name) + Run(Fresh(k), rest)
  {
    var t := "(" + (body + (")" + rest));
    assert ":" + name + "(" + body + ")" + rest == ":" + (name + t);
    assert (name + t)[0] != ':' by { assert (name + t)[0] == name[0] && IsNameChar(name[0]); }
    ColonOpens(k, name + t);
    ColonAccumulates(k, "", name, t);
    assert "" + name == name;
    var sc := Scanner(Regexp, name, 1, k);
    assert t[0] == '(' && t[1..] == body + (")" + rest);
    assert Step(Scanner(Colon, name, 0, k), t) == Move(sc, "", 1);
    assert "" + Run(sc, t[1..]) == Run(sc, t[1..]);
    RunInsideGroup(sc, body, ")" + rest);
    GroupCloses(k, name, rest);
  }

  /** The names of the first two anonymous groups. */
  lemma FirstRegexpNames()
    ensures Braced(RegexpName(1)) == "{regexp1}" && Braced(RegexpName(2)) == "{regexp2}"
  {
    assert NatToString(1) == "1" && NatToString(2) == "2";
  }

  /** Two anonymous groups separated by plain text get consecutive numbers from 1. */
  lemma TwoAnonymousGroups(a: string, sep: string, b: string)
    requires IsGroupBody(a) && IsPlain(sep) && IsGroupBody(b)
    ensures Translate("(" + a + ")" + sep + "(" + b + ")") == Braced(RegexpName(1)) + sep + Braced(RegexpName(2))
  {
    var second := "(" + b + ")";
    assert "(" + a + ")" + sep + "(" + b + ")" == "(" + a + ")" + (sep + second);
    AnonymousGroup(0, a, sep + second);
    RunPlainThen(1, sep, second);
    assert second == "(" + b + ")" + [];
    AnonymousGroup(1, b, []);
    assert Braced(RegexpName(2)) + Run(Fresh(2), []) == Braced(RegexpName(2));
    Associative(Braced(RegexpName(1)), sep, Braced(RegexpName(2)));
  }

  /** Anonymous groups are numbered from 1 within each path. */
  lemma AnonymousGroupsNumberedFromOne(a: string, b: string)
    requires IsGroupBody(a) && IsGroupBody(b)
    ensures Translate("(" + a + ")/(" + b + ")") == "{regexp1}/{regexp2}"
  {
    TwoAnonymousGroups(a, "/", b);
    assert "(" + a + ")/(" + b + ")" == "(" + a + ")" + "/" + "(" + b + ")";
    FirstRegexpNames();
  }

  /** A colon parameter between plain segments: `prefix:name/suffix` becomes
      `prefix{name}/suffix`, whatever character ends the name (other than `(`). */
  lemma ColonParameterBetween(prefix: string, name: string, c: char, suffix: string)
    requires IsPlain(prefix) && IsName(name) && name != "" && !IsNameChar(c) && c != '(' && IsPlain(suffix)
    ensures Translate(prefix + ":" + name + [c] + suffix) == prefix + Braced(name) + [c] + suffix
  {
    assert prefix + ":" + name + [c] + suffix == prefix + (":" + name + [c] + suffix);
    RunPlainThen(0, prefix, ":" + name + [c] + suffix);
    ColonParameter(0, name, c, suffix);
    RunPlainThen(0, suffix, []);
    assert suffix + [] == suffix;
    Associative(prefix, Braced(name) + [c], suffix);
  }

  /** The documented example: `/users/:id/x` becomes `/users/{id}/x`. */
  lemma ColonParameterExample()
    ensures Translate("/users/:id/x") == "/users/{id}/x"
  {
    ColonParameterBetween("/users/", "id", '/', "x");
    assert "/users/" + ":" + "id" + ['/'] + "x" == "/users/:id/x";
    assert "/users/" + Braced("id") + ['/'] + "x" == "/users/{id}/x";
  }
}
