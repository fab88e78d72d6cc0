/** isTopicMatched: the character-level matcher against level-by-level matching. */
module TopicMatching {
  /** The levels of a topic: what stands between the separators. */
  function Levels(s: string): (levels: seq<string>)
    ensures levels != []
  {
    if s == [] then [""]
    else
      var rest := Levels(s[1..]);
      if s[0] == '/' then [""] + rest else [[s[0]] + rest[0]] + rest[1..]
  }

  /** Wildcards stand alone on their level, and '#' only on the last one. */
  predicate WellFormedLevels(f: seq<string>) {
    forall i | 0 <= i < |f| ::
      && ('+' in f[i] ==> f[i] == "+")
      && ('#' in f[i] ==> f[i] == "#" && i == |f| - 1)
  }

  /** A topic filter in the form the matcher assumes. A C string has no terminator inside. */
  predicate WellFormed(filter: string) {
    WellFormedLevels(Levels(filter))
  }

  /** What the matcher decides: literals are equal, '+' takes one non-empty level, and '#' takes one or more
      levels, the first of which is not empty. */
  predicate MatchLevels(f: seq<string>, n: seq<string>) {
    if f == [] then n == []
    else if f == ["#"] then n != [] && n[0] != ""
    else n != [] && (if f[0] == "+" then n[0] != "" else f[0] == n[0]) && MatchLevels(f[1..], n[1..])
  }

  predicate Match(filter: string, name: string) {
    MatchLevels(Levels(filter), Levels(name))
  }

  lemma LevelsCons(c: char, s: string)
    ensures Levels([c] + s) == if c == '/' then [""] + Levels(s) else [[c] + Levels(s)[0]] + Levels(s)[1..]
  {
    assert ([c] + s)[1..] == s;
  }

  /** A separator on both sides, after completely matched levels, is dropped. */
  lemma DropSeparators(f: string, n: string)
    requires WellFormed(['/'] + f)
    ensures WellFormed(f)
    ensures Match(['/'] + f, ['/'] + n) == Match(f, n)
  {
    LevelsCons('/', f);
    LevelsCons('/', n);
    var l := Levels(['/'] + f);
    forall i | 0 <= i < |Levels(f)| ensures l[i + 1] == Levels(f)[i] {
    }
    assert Levels(f)[|Levels(f)| - 1] == l[|l| - 1];
  }

  /** Equal characters on both sides are dropped. */
  lemma DropEqual(c: char, f: string, n: string)
    requires c !in {'/', '+', '#'} && WellFormed([c] + f)
    ensures WellFormed(f)
    ensures Match([c] + f, [c] + n) == Match(f, n)
  {
    LevelsCons(c, f);
    LevelsCons(c, n);
    var l, lf, ln := Levels([c] + f), Levels(f), Levels(n);
    assert l[0][0] == c && l[0][1..] == lf[0];
    assert forall i | 0 <= i < |lf[0]| :: lf[0][i] == l[0][i + 1];
    assert '+' !in lf[0] && '#' !in lf[0];
    assert forall i | 1 <= i < |lf| :: lf[i] == l[i];
    assert lf[0] == ln[0] <==> [c] + lf[0] == [c] + ln[0] by {
      assert ([c] + lf[0])[1..] == lf[0] && ([c] + ln[0])[1..] == ln[0];
    }
    assert Levels([c] + n)[1..] == ln[1..] && l[1..] == lf[1..];
    assert lf[0] != "+" && lf[0] != "#";
  }

  /** A literal character in front cannot match a different one. */
  lemma DifferentFails(c: char, d: char, f: string, n: string)
    requires c != d && c !in {'+', '#'} && WellFormed([c] + f)
    ensures !Match([c] + f, [d] + n)
  {
    LevelsCons(c, f);
    LevelsCons(d, n);
    var lf, ln := Levels([c] + f)[0], Levels([d] + n)[0];
    assert if c == '/' then lf == "" else lf[0] == c;
    assert if d == '/' then ln == "" else ln[0] == d;
  }

  /** A wildcard does not match an empty level. */
  lemma WildcardNeedsCharacter(c: char, f: string, n: string)
    requires c in {'+', '#'} && WellFormed([c] + f)
    ensures !Match([c] + f, ['/'] + n)
  {
    LevelsCons(c, f);
    LevelsCons('/', n);
  }

  /** '+' takes a whole non-empty level. */
  lemma PlusTakesLevel(f: string, level: string, n: string)
    requires WellFormed(['+'] + f)
    requires level != "" && '/' !in level && (n == [] || n[0] == '/')
    ensures WellFormed(f)
    ensures Match(['+'] + f, level + n) == Match(f, n)
  {
    LevelsCons('+', f);
    LevelOf(level, n);
    var l, lf := Levels(['+'] + f), Levels(f);
    assert l[0][0] == '+' && l[0][1..] == lf[0];
    assert forall i | 1 <= i < |lf| :: lf[i] == l[i];
    assert Levels(level + n)[1..] == Levels(n)[1..] && l[1..] == lf[1..];
  }

  /** Characters in front of a separator, or of the end, are the first level. */
  lemma {:induction false} LevelOf(level: string, n: string)
    requires '/' !in level && (n == [] || n[0] == '/')
    ensures Levels(level + n) == [level] + Levels(n)[1..] && Levels(n)[0] == ""
  {
    if level == "" {
      assert level + n == n;
    } else {
      LevelOf(level[1..], n);
      assert level + n == [level[0]] + (level[1..] + n);
      LevelsCons(level[0], level[1..] + n);
      assert [level[0]] + level[1..] == level;
    }
    if n != "" {
      assert n == ['/'] + n[1..];
      LevelsCons('/', n[1..]);
    }
  }

  /** Only the empty string is a single empty level. */
  lemma OneEmptyLevel(s: string)
    ensures Levels(s) == [""] <==> s == ""
  {
    if s != "" {
      LevelsCons(s[0], s[1..]);
      assert s == [s[0]] + s[1..];
    }
  }

  /** '#' takes all that is left, if that does not start with a separator. */
  lemma HashTakesRest(f: string, c: char, n: string)
    requires WellFormed(['#'] + f) && c != '/'
    ensures f == "" && WellFormed(f) && Match(['#'] + f, [c] + n)
  {
    LevelsCons('#', f);
    LevelsCons(c, n);
    var l := Levels(['#'] + f);
    assert l[0][0] == '#' && l[0] == "#" && |l| == 1;
    OneEmptyLevel(f);
    assert l[0][1..] == Levels(f)[0];
  }

  /** With one side used up, only nothing matches nothing. */
  lemma EndsTogether(f: string, n: string)
    requires WellFormed(f) && (f == "" || n == "")
    ensures Match(f, n) <==> f == "" && n == ""
  {
    OneEmptyLevel(f);
    OneEmptyLevel(n);
    var lf, ln := Levels(f), Levels(n);
    if f == "" {
      assert MatchLevels(lf, ln) <==> ln[0] == "" && ln[1..] == [];
    } else {
      assert [""][1..] == [];
      assert MatchLevels(lf[1..], []) <==> lf[1..] == [];
    }
  }

  /** isTopicMatched, for every well-formed filter and every name: exactly level-by-level matching. */
  method IsTopicMatched(topicFilter: string, topicName: string) returns (matched: bool)
    requires WellFormed(topicFilter)
    ensures matched == Match(topicFilter, topicName)
  {
    hide Match, WellFormed, Levels;
    var curf: nat, curn: nat := 0, 0;
    while curf < |topicFilter| && curn < |topicName|
      invariant curf <= |topicFilter| && curn <= |topicName|
      invariant WellFormed(topicFilter[curf..])
      invariant Match(topicFilter[curf..], topicName[curn..]) == Match(topicFilter, topicName)
      decreases |topicFilter| - curf
    {
      ghost var f, n := topicFilter[curf + 1..], topicName[curn + 1..];
      assert topicFilter[curf..] == [topicFilter[curf]] + f && topicName[curn..] == [topicName[curn]] + n;
      if topicName[curn] == '/' && topicFilter[curf] != '/' {
        if topicFilter[curf] in {'+', '#'} {
          WildcardNeedsCharacter(topicFilter[curf], f, n);
        } else {
          DifferentFails(topicFilter[curf], '/', f, n);
        }
        break;
      }
      if topicFilter[curf] != '+' && topicFilter[curf] != '#' && topicFilter[curf] != topicName[curn] {
        DifferentFails(topicFilter[curf], topicName[curn], f, n);
        break;
      }
      if topicFilter[curf] == '+' {
        ghost var from := curn;
        var nextpos := curn + 1;
        while nextpos < |topicName| && topicName[nextpos] != '/'
          invariant from <= curn < |topicName| && nextpos == curn + 1
          invariant '/' !in topicName[from..curn + 1]
          decreases |topicName| - curn
        {
          curn := curn + 1;
          nextpos := curn + 1;
        }
        assert topicName[from..] == topicName[from..curn + 1] + topicName[curn + 1..];
        PlusTakesLevel(f, topicName[from..curn + 1], topicName[curn + 1..]);
      } else if topicFilter[curf] == '#' {
        HashTakesRest(f, topicName[curn], n);
        curn := |topicName| - 1;
        EndsTogether(f, topicName[curn + 1..]);
      } else if topicFilter[curf] == '/' {
        DropSeparators(f, n);
      } else {
        DropEqual(topicFilter[curf], f, n);
      }
      curf := curf + 1;
      curn := curn + 1;
    }
    matched := curn == |topicName| && curf == |topicFilter|;
    if curf == |topicFilter| || curn == |topicName| {
      EndsTogether(topicFilter[curf..], topicName[curn..]);
    }
  }

  /** Section 4.7.1 of MQTT 3.1.1: '+' matches one level, empty or not; '#' matches its parent and any number of
      levels below. */
  predicate StandardMatch(f: seq<string>, n: seq<string>) {
    if f == [] then n == []
    else if f == ["#"] then true
    else n != [] && (f[0] == "+" || f[0] == n[0]) && StandardMatch(f[1..], n[1..])
  }

  /** No '+' stands against an empty level, and a final '#' has a non-empty level to start with. */
  predicate WildcardsFilled(f: seq<string>, n: seq<string>) {
    forall i | 0 <= i < |f| && f[i] in {"+", "#"} :: i < |n| && n[i] != ""
  }

  /** The matcher accepts exactly what the standard matches and whose wildcards meet non-empty levels. */
  lemma {:induction false} MatchIsStandardWhenFilled(f: seq<string>, n: seq<string>)
    requires WellFormedLevels(f)
    ensures MatchLevels(f, n) <==> StandardMatch(f, n) && WildcardsFilled(f, n)
  {
    if f != [] && f != ["#"] && n != [] {
      var g, m := f[1..], n[1..];
      assert forall i | 0 <= i < |g| :: g[i] == f[i + 1];
      assert forall i | 0 <= i < |m| :: m[i] == n[i + 1];
      assert '#' in "#";
      MatchIsStandardWhenFilled(g, m);
      if WildcardsFilled(g, m) && (f[0] == "+" ==> n[0] != "") && f[0] != "#" {
        assert forall i | 1 <= i < |f| :: f[i] == g[i - 1];
        assert WildcardsFilled(f, n);
      }
      if WildcardsFilled(f, n) {
        assert WildcardsFilled(g, m);
      }
    }
  }

  /** A filter that equals the name, which is asked first, is also matched. */
  lemma {:induction false} EqualMatches(f: seq<string>)
    requires WellFormedLevels(f)
    ensures MatchLevels(f, f)
  {
    if f != [] && f != ["#"] {
      assert forall i | 0 <= i < |f[1..]| :: f[1..][i] == f[i + 1];
      EqualMatches(f[1..]);
    }
  }

  /** The standard lets '#' match its parent and '+' an empty level; the matcher does not. */
  lemma ParentAndEmptyLevelAreMissed()
    ensures StandardMatch(Levels("a/#"), Levels("a")) && !Match("a/#", "a")
    ensures StandardMatch(Levels("+/b"), Levels("/b")) && !Match("+/b", "/b")
  {
    LevelsCons('a', "");
    LevelsCons('#', "");
    LevelsCons('b', "");
    LevelsCons('/', "#");
    LevelsCons('/', "b");
    LevelsCons('a', "/#");
    LevelsCons('+', "/b");
    assert ['a'] + "" == "a" && ['#'] + "" == "#" && ['b'] + "" == "b" && ['/'] + "#" == "/#" && ['/'] + "b" == "/b";
    assert ['a'] + "/#" == "a/#" && ['+'] + "/b" == "+/b";
    assert Levels("/b") == ["", "b"] && ['+'] + "" == "+";
    assert Levels("a/#") == ["a", "#"] && Levels("+/b") == ["+", "b"];
  }

  /** What deliverMessage does with one handler slot: an attached handler is called if its filter is the name or
      matches it. */
  datatype Handler = Free | Handler(filter: string, attached: bool)

  predicate Called(h: Handler, name: string) {
    h.Handler? && h.attached && Match(h.filter, name)
  }

  /** deliverMessage: every matching handler is called once, in slot order; the default handler is called if none is. */
  method DeliverMessage(handlers: array<Handler>, name: string, defaultAttached: bool)
      returns (calls: seq<nat>, byDefault: bool, success: bool)
    requires forall i | 0 <= i < handlers.Length && handlers[i].Handler? :: WellFormed(handlers[i].filter)
    ensures forall i: nat :: i in calls <==> i < handlers.Length && Called(handlers[i], name)
    ensures forall j, k | 0 <= j < k < |calls| :: calls[j] < calls[k]
    ensures byDefault <==> calls == [] && defaultAttached
    ensures success <==> calls != [] || defaultAttached
  {
    hide Match, WellFormed;
    calls := [];
    for i := 0 to handlers.Length
      invariant forall k: nat :: k in calls <==> k < i && Called(handlers[k], name)
      invariant forall j | 0 <= j < |calls| :: calls[j] < i
      invariant forall j, k | 0 <= j < k < |calls| :: calls[j] < calls[k]
    {
      if handlers[i].Handler? {
        var matched := handlers[i].filter == name;
        if matched {
          FilterMatchesItself(name);
        } else {
          matched := IsTopicMatched(handlers[i].filter, name);
        }
        if matched && handlers[i].attached {
          calls := calls + [i];
        }
      }
    }
    byDefault := calls == [] && defaultAttached;
    success := calls != [] || byDefault;
  }

  lemma FilterMatchesItself(filter: string)
    requires WellFormed(filter)
    ensures Match(filter, filter)
  {
    EqualMatches(Levels(filter));
  }
}
