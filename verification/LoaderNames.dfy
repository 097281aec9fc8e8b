/** The directory names that dlopen finds in a LD_LIBRARY_PATH list, and what they have to do
    with the text of the list. */
module LoaderNames {

  // The first ':' at `i` or later, or the length of `p`.
  function NextColon(p: string, i: nat): (q: nat)
    requires i <= |p|
    ensures i <= q <= |p|
    ensures q < |p| ==> p[q] == ':'
    ensures ':' !in p[i..q]
    decreases |p| - i
  {
    if i == |p| || p[i] == ':' then i else NextColon(p, i + 1)
  }

  // The first directory name.  The search for its end starts at its second character, so
  // an empty name becomes "." and absorbs the name after it.
  function FirstName(p: string): string
    requires p != ""
  {
    if p[0] == ':' then "." else p[..NextColon(p, 1)]
  }

  // The text behind the first name and its separator.
  function Later(p: string): (r: string)
    requires p != ""
    ensures |r| < |p|
  {
    var q := NextColon(p, 1);
    if q < |p| then p[q + 1..] else ""
  }

  function Names(p: string): seq<string>
    decreases |p|
  {
    if p == "" then [] else [FirstName(p)] + Names(Later(p))
  }

  function Colons(p: string): nat {
    if p == "" then 0 else (if p[0] == ':' then 1 else 0) + Colons(p[1..])
  }

  // The last name is not ended by a ':', so that the character after its NUL is read.
  predicate Unended(p: string)
    decreases |p|
  {
    p != "" && (NextColon(p, 1) == |p| || Unended(Later(p)))
  }

  lemma {:induction false} ColonsAppend(p: string, c: char)
    ensures Colons(p + [c]) == Colons(p) + if c == ':' then 1 else 0
  {
    if p != "" {
      assert (p + [c])[1..] == p[1..] + [c];
      ColonsAppend(p[1..], c);
    }
  }

  // ---- the vector is large enough

  lemma {:induction false} ColonsFrom(p: string, i: nat)
    requires i <= |p|
    ensures
      var q := NextColon(p, i);
      Colons(p[i..]) == if q < |p| then 1 + Colons(p[q + 1..]) else 0
    decreases |p| - i
  {
    if i < |p| {
      assert p[i..][1..] == p[i + 1..];
      if p[i] != ':' {
        ColonsFrom(p, i + 1);
      }
    }
  }

  /** There are at most as many names as the counting pass counted. */
  lemma {:induction false} NamesFit(p: string)
    ensures |Names(p)| <= Colons(p) + 1
    decreases |p|
  {
    if p != "" {
      ColonsFrom(p, 1);
      NamesFit(Later(p));
    }
  }

  // ---- joining the names again

  function Join(names: seq<string>): string {
    if |names| == 0 then ""
    else if |names| == 1 then names[0]
    else names[0] + ":" + Join(names[1..])
  }

  function TrailingColon(p: string): string {
    if p != "" && p[|p| - 1] == ':' then ":" else ""
  }

  // The names joined again, with a trailing ':' when the list has one.
  function Rejoined(p: string): string {
    Join(Names(p)) + TrailingColon(p)
  }

  // No empty name but possibly a last one: no ':' in front, and none after another.
  predicate Clean(p: string) {
    && (p == "" || p[0] != ':')
    && forall i :: 0 < i < |p| ==> !(p[i - 1] == ':' && p[i] == ':')
  }

  lemma CleanLater(p: string)
    requires p != "" && p[0] != ':'
    ensures Clean(p) <==> Clean(Later(p))
  {
    var q := NextColon(p, 1);
    var r := Later(p);
    assert forall i :: 1 <= i < q ==> p[i] == p[1..q][i - 1];
    if q < |p| {
      assert forall i :: 0 <= i < |r| ==> r[i] == p[q + 1 + i];
    }
  }

  lemma FirstSplits(p: string)
    requires p != "" && p[0] != ':' && Later(p) != ""
    ensures p == FirstName(p) + ":" + Later(p) && TrailingColon(p) == TrailingColon(Later(p))
  {}

  lemma NamesStep(p: string)
    requires p != "" && Later(p) != ""
    ensures Names(p) == [FirstName(p)] + Names(Later(p)) && Names(Later(p)) != []
  {}

  lemma JoinStep(first: string, names: seq<string>)
    requires names != []
    ensures Join([first] + names) == first + ":" + Join(names)
  {
    assert ([first] + names)[1..] == names;
  }

  lemma Assoc(a: string, b: string, c: string)
    ensures (a + b) + c == a + (b + c)
  {}

  lemma RejoinedStep(p: string)
    requires p != "" && p[0] != ':' && Later(p) != ""
    ensures Rejoined(p) == FirstName(p) + ":" + Rejoined(Later(p))
    ensures p == FirstName(p) + ":" + Later(p)
  {
    FirstSplits(p);
    NamesStep(p);
    JoinStep(FirstName(p), Names(Later(p)));
    hide Names, Join, FirstName, Later, TrailingColon;
    Assoc(FirstName(p) + ":", Join(Names(Later(p))), TrailingColon(p));
  }

  lemma RejoinedDot(p: string)
    requires p != "" && p[0] == ':'
    ensures Rejoined(p) != "" && Rejoined(p)[0] == '.'
  {
    assert Names(p)[0] == ".";
  }

  lemma RejoinedLast(p: string)
    requires p != "" && p[0] != ':' && Later(p) == ""
    ensures Rejoined(p) == p
  {
    var q := NextColon(p, 1);
    assert Names(p) == [p[..q]];
    assert q == |p| && |p| > 1 ==> p[|p| - 1] == p[1..q][|p| - 2];
  }

  /** The list can be recovered from the names, up to a trailing ':', exactly when it has
      no leading ':' and no "::". */
  lemma {:induction false} RejoinedIffClean(p: string)
    ensures Rejoined(p) == p <==> Clean(p)
    decreases |p|
  {
    if p == "" {
    } else if p[0] == ':' {
      RejoinedDot(p);
    } else {
      CleanLater(p);
      if Later(p) == "" {
        RejoinedLast(p);
      } else {
        RejoinedIffClean(Later(p));
        RejoinedStep(p);
        hide Rejoined, Clean, Later;
        Prefixed(FirstName(p) + ":", Rejoined(Later(p)), Later(p));
      }
    }
  }

  lemma Prefixed(a: string, b: string, c: string)
    ensures a + b == a + c <==> b == c
  {
    if a + b == a + c {
      assert b == (a + b)[|a|..] && c == (a + c)[|a|..];
    }
  }

  // ---- the names and the components of the list

  // What stands between the colons: one component more than there are colons.
  function Components(p: string): (cs: seq<string>)
    ensures cs != []
    decreases |p|
  {
    var q := NextColon(p, 0);
    if q == |p| then [p] else [p[..q]] + Components(p[q + 1..])
  }

  lemma {:induction false} ComponentsCount(p: string)
    ensures |Components(p)| == Colons(p) + 1
    decreases |p|
  {
    var q := NextColon(p, 0);
    assert p[0..] == p;
    ColonsFrom(p, 0);
    if q < |p| {
      ComponentsCount(p[q + 1..]);
    }
  }

  // What the scan makes of them: an empty component becomes "." and takes the next one
  // along, and an empty last one is dropped.
  function Absorbed(cs: seq<string>): seq<string> {
    if cs == [] || cs == [""] then []
    else if cs[0] != "" then [cs[0]] + Absorbed(cs[1..])
    else ["."] + Absorbed(cs[2..])
  }

  lemma ComponentsStep(p: string, q: nat)
    requires q == NextColon(p, 0) < |p|
    ensures Components(p) == [p[..q]] + Components(p[q + 1..])
  {}

  lemma ComponentsFirst(p: string)
    requires p != "" && p[0] != ':'
    ensures
      var q := NextColon(p, 1);
      Components(p) == if q < |p| then [p[..q]] + Components(Later(p)) else [p]
  {
    var q := NextColon(p, 1);
    assert NextColon(p, 0) == q;
    if q < |p| {
      ComponentsStep(p, q);
      hide Components, NextColon;
    }
  }

  lemma ComponentsEmptyFirst(p: string)
    requires p != "" && p[0] == ':'
    ensures Components(p) == [""] + Components(p[1..])
  {}

  // NextColon, from one position and in the text from there on.
  lemma {:induction false} NextColonShift(p: string, i: nat)
    requires 0 < i <= |p|
    ensures NextColon(p, i) == 1 + NextColon(p[1..], i - 1)
    decreases |p| - i
  {
    if i < |p| && p[i] != ':' {
      NextColonShift(p, i + 1);
    }
  }

  // Dropping what was put in front.
  lemma Tail(c: string, cs: seq<string>)
    ensures |[c] + cs| == 1 + |cs| && ([c] + cs)[0] == c && ([c] + cs)[1..] == cs
  {}

  lemma TailOfTwo(cs: seq<string>)
    requires |cs| >= 2
    ensures cs[2..] == cs[1..][1..]
  {}

  lemma LaterInTail(p: string, q: nat)
    requires 0 < q < |p|
    ensures p[1..][q..] == p[q + 1..]
  {}

  lemma ComponentsSecond(p: string)
    requires p != "" && p[0] == ':'
    ensures Components(p[1..])[1..] == if NextColon(p, 1) < |p| then Components(Later(p)) else []
  {
    var r, q := p[1..], NextColon(p, 1);
    NextColonShift(p, 1);
    if q < |p| {
      ComponentsStep(r, q - 1);
      LaterInTail(p, q);
      hide Components, NextColon;
      Tail(r[..q - 1], Components(r[q..]));
    }
  }

  lemma AbsorbedFirst(c: string, cs: seq<string>)
    requires c != ""
    ensures Absorbed([c] + cs) == [c] + Absorbed(cs)
  {
    Tail(c, cs);
  }

  lemma AbsorbedEmptyFirst(cs: seq<string>)
    requires cs != []
    ensures Absorbed([""] + cs) == ["."] + Absorbed(cs[1..])
  {
    Tail("", cs);
    TailOfTwo([""] + cs);
  }

  /** For every list, the names are the components with each empty one absorbing the next. */
  lemma {:induction false} NamesAbsorb(p: string)
    ensures Names(p) == Absorbed(Components(p))
    decreases |p|
  {
    if p == "" {
      assert Components("") == [""];
    } else {
      var q := NextColon(p, 1);
      NamesAbsorb(Later(p));
      if p[0] == ':' {
        ComponentsEmptyFirst(p);
        ComponentsSecond(p);
        AbsorbedEmptyFirst(Components(p[1..]));
        hide Components, Absorbed;
        AbsorbedNone();
      } else {
        ComponentsFirst(p);
        assert q == |p| ==> p[..q] == p && [p] + [] == [p];
        AbsorbedFirst(p[..q], if q < |p| then Components(Later(p)) else []);
        hide Components, Absorbed;
        AbsorbedNone();
      }
    }
  }

  lemma AbsorbedNone()
    ensures Absorbed([]) == [] && Absorbed(Components("")) == []
  {
    assert Components("") == [""];
  }

  lemma {:induction false} AbsorbedSame(cs: seq<string>)
    ensures Absorbed(cs) == cs <==> "" !in cs
    ensures "" !in Absorbed(cs)
    decreases |cs|
  {
    if cs != [] && cs[0] != "" {
      AbsorbedSame(cs[1..]);
    } else if |cs| > 1 {
      AbsorbedSame(cs[2..]);
    }
  }

  /** The names are the components of the list exactly when none of these is empty. */
  lemma NamesAreComponentsIff(p: string)
    ensures Names(p) == Components(p) <==> "" !in Components(p)
  {
    NamesAbsorb(p);
    AbsorbedSame(Components(p));
  }

  lemma EmptyComponentLater(p: string)
    requires p != "" && p[0] != ':'
    ensures "" in Components(p) <==> NextColon(p, 1) < |p| && "" in Components(Later(p))
  {
    ComponentsFirst(p);
  }

  lemma EmptyComponentFirst(p: string)
    requires p == "" || p[0] == ':'
    ensures "" in Components(p)
  {
    if p != "" {
      ComponentsEmptyFirst(p);
    }
    assert Components(p)[0] == "";
  }

  lemma TrailingLater(p: string)
    requires p != "" && p[0] != ':' && NextColon(p, 1) < |p| && Later(p) == ""
    ensures TrailingColon(p) == ":"
  {}

  lemma TrailingNone(p: string)
    requires p != "" && p[0] != ':' && NextColon(p, 1) == |p|
    ensures TrailingColon(p) == "" && Clean(p)
  {
    assert forall i :: 1 <= i < |p| ==> p[i] == p[1..|p|][i - 1];
  }

  /** In terms of the text: a component is empty exactly in an empty list, behind or before a
      ':' at one of the ends, and between two that meet. */
  lemma {:induction false} EmptyComponentIff(p: string)
    ensures "" in Components(p) <==> p == "" || !Clean(p) || TrailingColon(p) == ":"
    decreases |p|
  {
    hide Components;
    if p == "" || p[0] == ':' {
      EmptyComponentFirst(p);
    } else {
      EmptyComponentLater(p);
      if NextColon(p, 1) == |p| {
        TrailingNone(p);
      } else {
        EmptyComponentIff(Later(p));
        CleanLater(p);
        if Later(p) == "" {
          TrailingLater(p);
        } else {
          FirstSplits(p);
        }
      }
    }
  }

  lemma WitnessTail()
    ensures Components("b:c") == ["b", "c"]
  {
    assert "b:c"[..1] == "b" && "b:c"[2..] == "c" && NextColon("c", 0) == 1;
    ComponentsStep("b:c", 1);
    assert Components("c") == ["c"];
  }

  lemma WitnessMiddle()
    ensures Components(":b:c") == [""] + ["b", "c"]
  {
    assert ":b:c"[..0] == "" && ":b:c"[1..] == "b:c";
    ComponentsStep(":b:c", 0);
    hide Components, NextColon;
    WitnessTail();
  }

  lemma Four(a: string, b: string, c: string, d: string)
    ensures [a] + ([b] + [c, d]) == [a, b, c, d]
  {}

  lemma WitnessComponents()
    ensures Components("a::b:c") == ["a", "", "b", "c"]
  {
    assert "a::b:c"[..1] == "a" && "a::b:c"[2..] == ":b:c";
    ComponentsStep("a::b:c", 1);
    hide Components, NextColon;
    WitnessMiddle();
    Four("a", "", "b", "c");
  }

  lemma WitnessAbsorbed()
    ensures Absorbed(["a", "", "b", "c"]) == ["a", ".", "c"]
  {
    assert ["a", "", "b", "c"][1..] == ["", "b", "c"] && ["", "b", "c"][2..] == ["c"] && ["c"][1..] == [];
    assert Absorbed(["c"]) == ["c"];
    assert Absorbed(["", "b", "c"]) == [".", "c"];
  }

  // An empty component that swallows the next one.
  lemma EmptyNameAbsorbs()
    ensures Components("a::b:c") == ["a", "", "b", "c"] && Names("a::b:c") == ["a", ".", "c"]
  {
    hide Components, Absorbed, Names;
    WitnessComponents();
    WitnessAbsorbed();
    NamesAbsorb("a::b:c");
  }

  // An empty component that disappears, from a list that the names give back.
  lemma EmptyLastNameIsLost()
    ensures Components("a:") == ["a", ""] && Names("a:") == ["a"] && Rejoined("a:") == "a:"
  {
    assert "a:"[..1] == "a" && "a:"[2..] == "" && NextColon("a:", 1) == 1;
    ComponentsStep("a:", 1);
    assert Components("") == [""];
    assert Later("a:") == "" && FirstName("a:") == "a" && Names("a:") == ["a"] + Names("");
  }

  // ---- when the scan leaves the buffer

  function TrailingColons(p: string): nat {
    if p == "" || p[|p| - 1] != ':' then 0 else 1 + TrailingColons(p[..|p| - 1])
  }

  predicate AllColons(p: string) {
    forall i :: 0 <= i < |p| ==> p[i] == ':'
  }

  lemma {:induction false} TrailingOf(a: string, r: string)
    ensures TrailingColons(r) <= |r| && (TrailingColons(r) == |r| <==> AllColons(r))
    ensures TrailingColons(a + r) == if AllColons(r) then |r| + TrailingColons(a) else TrailingColons(r)
    decreases |r|
  {
    if r == "" {
      assert a + r == a;
    } else {
      var s := r[..|r| - 1];
      TrailingOf(a, s);
      assert (a + r)[..|a + r| - 1] == a + s;
      assert (a + r)[|a + r| - 1] == r[|r| - 1];
      assert r[|r| - 1] == ':' ==> (AllColons(r) <==> AllColons(s)) by {
        assert r == s + [r[|r| - 1]];
      }
    }
  }

  // What a user can see of `Unended`: the parity of the colons at the end.
  predicate EndsOpen(p: string) {
    p != "" && (if AllColons(p) then |p| % 2 == 1 else TrailingColons(p) % 2 == 0)
  }

  lemma HeadTrails(p: string, q: nat)
    requires p != "" && q == NextColon(p, 1) && q < |p|
    ensures
      var t := TrailingColons(p[..q + 1]);
      if q == 1 && p[0] == ':' then t == 2 && AllColons(p[..q + 1]) else t == 1 && !AllColons(p[..q + 1])
  {
    var h := p[..q + 1];
    assert h[..q] == p[..q];
    var before := p[q - 1];
    assert q > 1 ==> before == p[1..q][q - 2];
    assert before == ':' <==> (q == 1 && p[0] == ':');
    assert p[..q][..q - 1] == p[..q - 1];
    if before == ':' {
      assert p[..0] == "";
      assert TrailingColons(p[..1]) == 1 + TrailingColons(p[..0]);
    } else {
      assert h[q - 1] != ':';
    }
  }

  lemma OpenBehind(h: string, r: string)
    requires h != ""
    requires if AllColons(h) then |h| == 2 else TrailingColons(h) == 1
    ensures EndsOpen(h + r) <==> EndsOpen(r)
  {
    TrailingOf(h, r);
    AllColonsOf(h, r);
    hide TrailingColons, AllColons;
    Parity(|r|);
  }

  lemma Halves(p: string, i: nat)
    requires i <= |p|
    ensures p == p[..i] + p[i..]
  {}

  lemma HeadAndLater(p: string)
    requires p != "" && NextColon(p, 1) < |p|
    ensures p == p[..NextColon(p, 1) + 1] + Later(p)
  {
    Halves(p, NextColon(p, 1) + 1);
    hide NextColon;
  }

  lemma OpenLater(p: string)
    requires p != "" && NextColon(p, 1) < |p|
    ensures EndsOpen(p) <==> EndsOpen(Later(p))
  {
    var q := NextColon(p, 1);
    hide NextColon, Later, EndsOpen;
    HeadTrails(p, q);
    HeadAndLater(p);
    OpenBehind(p[..q + 1], Later(p));
  }

  lemma Parity(n: nat)
    ensures (n + 2) % 2 == n % 2 && ((n + 1) % 2 == 0 <==> n % 2 == 1)
  {}

  lemma AllColonsOf(a: string, b: string)
    ensures AllColons(a + b) <==> AllColons(a) && AllColons(b)
  {
    if AllColons(a + b) {
      assert forall i :: 0 <= i < |b| ==> b[i] == (a + b)[|a| + i];
      assert forall i :: 0 <= i < |a| ==> a[i] == (a + b)[i];
    }
  }

  lemma OpenLast(p: string)
    requires p != "" && NextColon(p, 1) == |p|
    ensures EndsOpen(p)
  {
    if |p| == 1 {
      assert p[..0] == "";
    } else {
      assert p[|p| - 1] == p[1..|p|][|p| - 2];
    }
  }

  /** Whether the scan reads behind the last NUL shows in the colons at the end of the list. */
  lemma {:induction false} UnendedIffEndsOpen(p: string)
    ensures Unended(p) <==> EndsOpen(p)
    decreases |p|
  {
    hide EndsOpen;
    if p == "" {
      OpenNot();
    } else if NextColon(p, 1) == |p| {
      OpenLast(p);
    } else {
      UnendedIffEndsOpen(Later(p));
      OpenLater(p);
    }
  }

  lemma OpenNot()
    ensures !EndsOpen("")
  {}
}
