/** How dlopen turns LD_LIBRARY_PATH into a vector of directory names, in place: the names
    are C strings inside a fixed buffer, ended by NULs that replace separators. */
module LoaderPath {
  import opened LoaderNames

  const BUFFER_SIZE := 2048
  const VECTOR_SIZE := 64

  datatype Option<T> = None | Some(value: T)

  // An element of the vector: a null pointer, the string ".", or a position in the buffer.
  datatype Entry = Null | Dot | Position(index: nat)

  // ---- specification

  // The buffer, read as a C string from position `i` on.
  function CString(b: seq<char>, i: nat): string
    requires i <= |b|
    decreases |b| - i
  {
    if i == |b| || b[i] == '\0' then "" else [b[i]] + CString(b, i + 1)
  }

  function NameAt(b: seq<char>, e: Entry): string
    requires e.Position? ==> e.index <= |b|
  {
    match e
    case Null => ""
    case Dot => "."
    case Position(i) => CString(b, i)
  }

  // It is the text up to the first NUL, or to the end.
  lemma {:induction false} CStringMeans(b: seq<char>, i: nat)
    requires i <= |b|
    ensures
      var r := CString(b, i);
      && '\0' !in r && i + |r| <= |b| && b[i..i + |r|] == r
      && (i + |r| == |b| || b[i + |r|] == '\0')
    decreases |b| - i
  {
    if i < |b| && b[i] != '\0' {
      CStringMeans(b, i + 1);
      var r := CString(b, i + 1);
      assert b[i..i + 1 + |r|] == [b[i]] + b[i + 1..i + 1 + |r|];
    }
  }

  // The vector holds exactly these names, and then a null pointer.
  predicate Holds(v: seq<Entry>, b: seq<char>, names: seq<string>) {
    && |names| < |v| && v[|names|].Null?
    && forall k :: 0 <= k < |names| ==>
         !v[k].Null? && (v[k].Position? ==> v[k].index < |b|) && NameAt(b, v[k]) == names[k]
  }

  // The text a buffer holds after strncpy, followed by NULs.
  predicate Text(b: seq<char>, p: string) {
    |p| <= |b| && b[..|p|] == p && forall k :: |p| <= k < |b| ==> b[k] == '\0'
  }

  // ---- the code

  method Strncpy(dst: array<char>, src: string)
    requires '\0' !in src
    modifies dst
    ensures |src| <= dst.Length ==> Text(dst[..], src)
    ensures |src| > dst.Length ==> dst[..] == src[..dst.Length]
  {
    var i := 0;
    while i < dst.Length && i < |src|
      invariant 0 <= i <= dst.Length && i <= |src|
      invariant dst[..i] == src[..i]
    {
      dst[i] := src[i];
      i := i + 1;
    }
    while i < dst.Length
      invariant |src| <= i <= dst.Length || i == dst.Length
      invariant |src| <= dst.Length ==> dst[..|src|] == src
      invariant |src| > dst.Length ==> dst[..] == src[..dst.Length]
      invariant forall k :: |src| <= k < i ==> dst[k] == '\0'
    {
      dst[i] := '\0';
      i := i + 1;
    }
  }

  // The counting pass: one for the list, one more for every ':'.  A buffer without a NUL
  // makes it read beyond the end.
  method Count(lpath: array<char>, ghost p: string) returns (overrun: bool, n: nat)
    requires '\0' !in p
    requires |p| <= lpath.Length ==> Text(lpath[..], p)
    requires |p| > lpath.Length ==> lpath[..] == p[..lpath.Length]
    ensures overrun == (lpath.Length <= |p|)
    ensures !overrun ==> n == Colons(p) + 1
  {
    n := 1;
    var ch := 0;
    overrun := false;
    while true
      invariant 0 <= ch <= lpath.Length && ch <= |p|
      invariant lpath[..ch] == p[..ch]
      invariant n == Colons(p[..ch]) + 1
      decreases lpath.Length - ch
    {
      if ch == lpath.Length {
        overrun := true;
        return;
      }
      if lpath[ch] == '\0' {
        break;
      }
      assert lpath[ch] == p[ch];
      assert p[..ch + 1] == p[..ch] + [p[ch]];
      ColonsAppend(p[..ch], p[ch]);
      if lpath[ch] == ':' {
        n := n + 1;
      }
      ch := ch + 1;
    }
    assert p[..ch] == p;
  }

  // A name that is complete in the part of the buffer before `limit`.
  predicate Complete(b: seq<char>, e: Entry, name: string, limit: nat) {
    match e
    case Null => false
    case Dot => name == "."
    case Position(i) =>
      && i + |name| < limit <= |b| && b[i..i + |name|] == name && b[i + |name|] == '\0'
      && '\0' !in name
  }

  lemma {:induction false} CompleteIsCString(b: seq<char>, i: nat, name: string)
    requires i + |name| < |b| && b[i..i + |name|] == name && b[i + |name|] == '\0' && '\0' !in name
    ensures CString(b, i) == name
    decreases |name|
  {
    if name != "" {
      assert b[i] == name[0];
      assert b[i + 1..i + 1 + |name[1..]|] == name[1..];
      CompleteIsCString(b, i + 1, name[1..]);
    }
  }

  lemma CompleteStays(b: seq<char>, c: seq<char>, e: Entry, name: string, limit: nat, more: nat)
    requires Complete(b, e, name, limit) && limit <= more <= |c| == |b| && c[..limit] == b[..limit]
    ensures Complete(c, e, name, more)
  {
    if e.Position? {
      var i, n := e.index, |name|;
      assert c[i..i + n] == c[..limit][i..i + n] == b[..limit][i..i + n] == b[i..i + n];
      assert c[i + n] == c[..limit][i + n] == b[..limit][i + n] == b[i + n];
    }
  }

  // No read of the scan goes further than this.
  function LastRead(p: string): nat {
    if p == "" then 0 else |p| + 1
  }

  // The buffer still holds the text from `next` on, and NULs behind it.
  predicate Rest(b: seq<char>, p: string, next: nat) {
    |p| < |b| && forall k :: next <= k < |b| && k <= LastRead(p) ==> b[k] == if k < |p| then p[k] else '\0'
  }

  // The inner loop: from the second character of a name to its end, which becomes a NUL.
  method EndName(lpath: array<char>, next: nat, ghost p: string) returns (ch: nat)
    requires '\0' !in p && next < |p| && Rest(lpath[..], p, next)
    modifies lpath
    ensures ch == next + NextColon(p[next..], 1) && lpath[..] == old(lpath[..])[ch := '\0']
  {
    ch := next + 1;
    ghost var found := false;
    while lpath[ch] != '\0'
      invariant next < ch <= |p|
      invariant found ==> ch < |p| && p[ch] == ':' && lpath[..] == old(lpath[..])[ch := '\0']
      invariant !found ==> lpath[..] == old(lpath[..])
      invariant ':' !in p[next..][1..ch - next]
      decreases |p| - ch, if found then 0 else 1
    {
      assert !found && lpath[ch] == p[ch] by {
        assert lpath[ch] == lpath[..][ch];
      }
      if lpath[ch] == ':' {
        lpath[ch] := '\0';
        found := true;
      } else {
        ch := ch + 1;
      }
    }
    NextColonIs(p[next..], 1, ch - next);
  }

  lemma {:induction false} NextColonIs(p: string, i: nat, q: nat)
    requires i <= q <= |p| && ':' !in p[i..q] && (q < |p| ==> p[q] == ':')
    ensures NextColon(p, i) == q
    decreases q - i
  {
    if i < q {
      assert p[i] == p[i..q][0];
      assert p[i + 1..q] == p[i..q][1..];
      NextColonIs(p, i + 1, q);
    }
  }

  // The first entries of the vector are complete names.
  predicate Filled(v: seq<Entry>, b: seq<char>, names: seq<string>, limit: nat) {
    |names| <= |v| && forall k :: 0 <= k < |names| ==> Complete(b, v[k], names[k], limit)
  }

  lemma NameEnds(old_: seq<char>, b: seq<char>, p: string, next: nat, q: nat)
    requires '\0' !in p && next < |p| && Rest(old_, p, next)
    requires q == next + NextColon(p[next..], 1) && |b| == |old_| && b == old_[q := '\0']
    ensures
      Complete(b, if p[next] == ':' then Dot else Position(next), FirstName(p[next..]), q + 1)
    ensures Rest(b, p, q + 1)
  {
    var r := p[next..];
    if p[next] != ':' {
      assert b[next..q] == r[..q - next];
    }
  }

  lemma FilledStays(v: seq<Entry>, b: seq<char>, c: seq<char>, names: seq<string>, limit: nat, more: nat)
    requires Filled(v, b, names, limit) && limit <= more <= |c| == |b| && c[..limit] == b[..limit]
    ensures Filled(v, c, names, more)
  {
    forall k | 0 <= k < |names|
      ensures Complete(c, v[k], names[k], more)
    {
      CompleteStays(b, c, v[k], names[k], limit, more);
    }
  }

  lemma FilledHolds(v: seq<Entry>, b: seq<char>, names: seq<string>, limit: nat)
    requires Filled(v, b, names, limit) && limit <= |b| && |names| < |v|
    ensures Holds(v[|names| := Null], b, names)
  {
    forall k | 0 <= k < |names| && v[k].Position?
      ensures v[k].index < |b| && NameAt(b, v[k]) == names[k]
    {
      CompleteIsCString(b, v[k].index, names[k]);
    }
  }

  lemma FilledMore(v: seq<Entry>, b: seq<char>, names: seq<string>, limit: nat, e: Entry, name: string)
    requires Filled(v, b, names, limit) && |names| < |v| && Complete(b, e, name, limit)
    ensures Filled(v[|names| := e], b, names + [name], limit)
  {}

  lemma RestAt(b: seq<char>, p: string, next: nat, k: nat)
    requires Rest(b, p, next) && '\0' !in p && next <= k < |b| && k <= LastRead(p)
    ensures |p| < |b| && (b[k] == '\0' <==> |p| <= k) && (k < |p| ==> b[k] == p[k])
  {}

  lemma Assoc<T>(a: seq<T>, x: T, b: seq<T>)
    ensures a + ([x] + b) == (a + [x]) + b
  {}

  // `rest` is the text whose names are not in the vector yet.
  predicate Left(p: string, next: nat, done: seq<string>, rest: string, more: bool, size: nat) {
    && Names(p) == done + Names(rest)
    && (more ==> next < |p| && rest == p[next..] && Unended(p) == Unended(rest))
    && (!more ==> rest == "" && (Unended(p) ==> |p| + 1 < size))
  }

  lemma LeftAtStart(p: string, size: nat)
    ensures Left(p, 0, [], p, p != "", size)
  {
    assert p[0..] == p && [] + Names(p) == Names(p);
  }

  lemma LeftAtEnd(p: string, next: nat, done: seq<string>, rest: string, size: nat)
    requires Left(p, next, done, rest, false, size)
    ensures Names(p) == done && (Unended(p) ==> |p| + 1 < size)
  {}

  // One name further: the buffer may end behind the NUL at `q`.
  lemma Advance(p: string, next: nat, done: seq<string>, rest: string, q: nat, size: nat)
    requires Left(p, next, done, rest, true, size) && q == next + NextColon(rest, 1)
    ensures q <= |p| && rest != "" && |done| + 1 <= |Names(p)|
    ensures q + 1 == size && |p| < size ==> Unended(p) && |p| + 1 == size
    ensures q + 1 < size ==> Left(p, q + 1, done + [FirstName(rest)], Later(rest), q + 1 < |p|, size)
  {
    assert q < |p| ==> rest[q - next + 1..] == p[q + 1..];
    assert Unended(rest) == (q == |p| || Unended(Later(rest)));
    hide NextColon, FirstName;
    Assoc(done, FirstName(rest), Names(Later(rest)));
  }

  // The body of the outer loop up to the end of one name.
  method AddName(lpath: array<char>, lpathv: array<Entry>, epathv: nat, next: nat,
                 ghost p: string, ghost done: seq<string>)
    returns (ch: nat)
    requires '\0' !in p && next < |p| && Rest(lpath[..], p, next)
    requires epathv == |done| < lpathv.Length && Filled(lpathv[..], lpath[..], done, next)
    requires next <= lpath.Length
    modifies lpath, lpathv
    ensures ch == next + NextColon(p[next..], 1) && ch < lpath.Length
    ensures Rest(lpath[..], p, ch + 1)
    ensures Filled(lpathv[..], lpath[..], done + [FirstName(p[next..])], ch + 1)
  {
    ghost var before, vector := lpath[..], lpathv[..];
    RestAt(before, p, next, next);
    hide Filled, FirstName, Complete;
    lpathv[epathv] := if lpath[next] == ':' then Dot else Position(next);
    ch := EndName(lpath, next, p);
    NameEnds(before, lpath[..], p, next, ch);
    hide Rest;
    FilledStays(vector, before, lpath[..], done, next, ch + 1);
    FilledMore(vector, lpath[..], done, ch + 1, lpathv[epathv], FirstName(p[next..]));
    assert lpathv[..] == vector[epathv := lpathv[epathv]];
  }

  /** The outer loop: one name after another, each written into the vector.  After the
      last name the character behind its NUL is read, which must still be in the buffer. */
  method Tokenize(lpath: array<char>, lpathv: array<Entry>, ghost p: string) returns (overrun: bool)
    requires '\0' !in p && Rest(lpath[..], p, 0) && |Names(p)| < lpathv.Length
    modifies lpath, lpathv
    ensures overrun == (Unended(p) && |p| + 1 == lpath.Length)
    ensures !overrun ==> Holds(lpathv[..], lpath[..], Names(p))
  {
    var next, more, epathv := 0, lpath[0] != '\0', 0;
    ghost var done: seq<string>, rest := [], p;
    LeftAtStart(p, lpath.Length);
    assert Filled(lpathv[..], lpath[..], [], 0);
    RestAt(lpath[..], p, 0, 0);
    hide Names, Unended, Left, FirstName, Later, NextColon, Rest, Filled, Holds;
    while more
      invariant next <= lpath.Length && epathv == |done| < lpathv.Length
      invariant Rest(lpath[..], p, next) && (more ==> next < |p| && rest == p[next..])
      invariant Left(p, next, done, rest, more, lpath.Length)
      invariant Filled(lpathv[..], lpath[..], done, next)
      decreases more, |p| - next
    {
      var ch := AddName(lpath, lpathv, epathv, next, p, done);
      Advance(p, next, done, rest, ch, lpath.Length);
      done, rest := done + [FirstName(rest)], Later(rest);
      epathv := epathv + 1;
      // the character is a NUL now; look behind it
      ch := ch + 1;
      if ch == lpath.Length {
        return true;
      }
      RestAt(lpath[..], p, ch, ch);
      more := lpath[ch] != '\0';
      next := ch;
      LeftNow(p, next, done, rest, more, lpath.Length);
    }
    LeftAtEnd(p, next, done, rest, lpath.Length);
    FilledHolds(lpathv[..], lpath[..], done, next);
    lpathv[epathv] := Null;
    overrun := false;
  }

  lemma LeftNow(p: string, next: nat, done: seq<string>, rest: string, more: bool, size: nat)
    requires Left(p, next, done, rest, more, size)
    ensures more ==> next < |p| && rest == p[next..]
  {}

  /** What the path code of dlopen comes to: undefined behaviour, no memory, a vector. */
  datatype Result = Overrun | NoMemory | Vector

  predicate NeedsMemory(p: string) {
    Colons(p) + 2 >= VECTOR_SIZE
  }

  // When the code looks behind the end of its buffer.
  predicate Overruns(p: string, memory: bool) {
    BUFFER_SIZE <= |p| || (|p| == BUFFER_SIZE - 1 && EndsOpen(p) && (NeedsMemory(p) ==> memory))
  }

  // One name that leaves room for its NUL and for nothing behind it; had it ended in a ':',
  // the look behind would have stayed inside.
  lemma LongNameOverruns() returns (p: string)
    ensures |p| == BUFFER_SIZE - 1 && '\0' !in p && ':' !in p && Overruns(p, true)
    ensures !Overruns(p[BUFFER_SIZE - 2 := ':'], true)
  {
    p := seq(BUFFER_SIZE - 1, _ => 'a');
    var q := p[BUFFER_SIZE - 2 := ':'];
    assert p[0] == q[0] == 'a' && q[|q| - 1] == ':';
    assert q[..|q| - 1][|q| - 2] == 'a' && TrailingColons(q[..|q| - 1]) == 0;
  }

  /** `memory` tells whether a vector can be allocated when the one on the stack is too
      small.  A vector that is built holds the names of the list and a final null. */
  method BuildVector(epath: Option<string>, lpathbuf: array<char>, lpathvbuf: array<Entry>, memory: bool)
    returns (r: Result, lpathv: array<Entry>)
    requires lpathbuf.Length == BUFFER_SIZE && lpathvbuf.Length == VECTOR_SIZE
    requires epath.Some? ==> '\0' !in epath.value
    modifies lpathbuf, lpathvbuf
    ensures epath.None? ==> r.Vector? && lpathv == lpathvbuf && lpathv.Length == 64 && lpathv[0].Null?
    ensures
      epath.Some? ==>
        var p := epath.value;
        && (r.Vector? ==> Holds(lpathv[..], lpathbuf[..], Names(p)))
        && (r.NoMemory? <==> |p| <= 2047 && |Components(p)| >= 63 && !memory)
        && (r.Overrun? <==> Overruns(p, memory))
        && (|p| <= 2046 ==> !r.Overrun?) && (|p| >= 2048 ==> r.Overrun?)
    ensures lpathv == lpathvbuf || (fresh(lpathv) && epath.Some? && |Components(epath.value)| >= 63)
  {
    ghost var p := if epath.Some? then epath.value else "";
    ComponentsCount(p);
    hide Components;
    lpathv := lpathvbuf;
    NamesFit(p);
    UnendedIffEndsOpen(p);
    if epath.Some? {
      Strncpy(lpathbuf, epath.value);
      var overrun, i := Count(lpathbuf, p);
      if overrun {
        return Overrun, lpathvbuf;
      }
      i := i + 1;
      if i >= VECTOR_SIZE {
        i := i + 1;
        if !memory {
          return NoMemory, lpathvbuf;
        }
        lpathv := new Entry[i](_ => Null);
      }
    } else {
      lpathbuf[0] := '\0';
    }
    hide Names, Unended, EndsOpen, Holds, NeedsMemory;
    var overrun := Tokenize(lpathbuf, lpathv, p);
    r := if overrun then Overrun else Vector;
  }
}
