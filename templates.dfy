/** Title templates with `{name}` placeholders filled one by one with
    `title.replace('{name}', value)`. A template is kept as the list of its
    pieces (literal text and placeholders), so that what `replace` does to the
    rendered string can be stated piece by piece. */
module Templates {
  import opened Common
  import opened Text

  datatype Piece = Lit(text: string) | Slot(name: string)

  function Placeholder(name: string): string {
    "{" + name + "}"
  }

  function RenderPiece(p: Piece): string {
    match p
    case Lit(t) => t
    case Slot(n) => Placeholder(n)
  }

  /** The template text: the pieces in order, each placeholder as `{name}`. */
  function Render(ps: seq<Piece>): string {
    if |ps| == 0 then "" else RenderPiece(ps[0]) + Render(ps[1..])
  }

  predicate BraceFree(s: string) {
    '{' !in s && '}' !in s
  }

  /** Literal text holds no `{` and placeholder names hold no brace. */
  predicate WellFormed(ps: seq<Piece>) {
    forall i :: 0 <= i < |ps| ==> (ps[i].Lit? ==> '{' !in ps[i].text) && (ps[i].Slot? ==> BraceFree(ps[i].name))
  }

  /** The first placeholder `name` becomes the literal `value`. */
  function Fill(ps: seq<Piece>, name: string, value: string): (r: seq<Piece>)
    ensures |r| == |ps|
  {
    if |ps| == 0 then []
    else if ps[0] == Slot(name) then [Lit(value)] + ps[1..]
    else [ps[0]] + Fill(ps[1..], name, value)
  }

  /** Every placeholder is named in `names`, and no name is used twice. */
  predicate SlotsAmong(ps: seq<Piece>, names: set<string>) {
    && (forall i :: 0 <= i < |ps| && ps[i].Slot? ==> ps[i].name in names)
    && (forall i, j :: 0 <= i < j < |ps| && ps[i].Slot? && ps[j].Slot? ==> ps[i].name != ps[j].name)
  }

  predicate NoSlots(ps: seq<Piece>) {
    forall i :: 0 <= i < |ps| ==> ps[i].Lit?
  }

  /** Filling a placeholder that is used at most once removes its name. */
  lemma {:induction false} FillRemoves(ps: seq<Piece>, names: set<string>, name: string, value: string)
    requires SlotsAmong(ps, names)
    requires '{' !in value
    ensures SlotsAmong(Fill(ps, name, value), names - {name})
    ensures WellFormed(ps) ==> WellFormed(Fill(ps, name, value))
  {
    if |ps| > 0 {
      var tail := ps[1..];
      assert SlotsAmong(tail, names) by {
        assert forall i :: 0 <= i < |tail| ==> tail[i] == ps[i + 1];
      }
      if ps[0] == Slot(name) {
        var r := [Lit(value)] + tail;
        forall i | 0 <= i < |r| && r[i].Slot?
          ensures r[i].name in names - {name}
        {
          assert r[i] == ps[i];
        }
        assert SlotsAmong(r, names - {name}) by {
          forall i, j | 0 <= i < j < |r| && r[i].Slot? && r[j].Slot?
            ensures r[i].name != r[j].name
          {
            assert r[i] == ps[i] && r[j] == ps[j];
          }
        }
      } else {
        FillRemoves(tail, names, name, value);
        var rest := Fill(tail, name, value);
        var r := [ps[0]] + rest;
        assert r[0] == ps[0];
        assert forall i :: 1 <= i < |r| ==> r[i] == rest[i - 1];
        if ps[0].Slot? {
          assert ps[0].name != name;
          assert forall i :: 0 <= i < |rest| && rest[i].Slot? ==> rest[i].name != ps[0].name by {
            forall i | 0 <= i < |rest| && rest[i].Slot?
              ensures rest[i].name != ps[0].name
            {
              FillKeeps(tail, name, value, i);
              assert ps[i + 1] == tail[i];
            }
          }
        }
        assert SlotsAmong(r, names - {name});
        if WellFormed(ps) {
          assert WellFormed(tail) by {
            assert forall i :: 0 <= i < |tail| ==> tail[i] == ps[i + 1];
          }
          FillRemoves(tail, names, name, value);
        }
      }
    }
  }

  /** A placeholder left by `Fill` was already there at the same place. */
  lemma {:induction false} FillKeeps(ps: seq<Piece>, name: string, value: string, i: nat)
    requires i < |ps| && Fill(ps, name, value)[i].Slot?
    ensures Fill(ps, name, value)[i] == ps[i]
  {
    if ps[0] != Slot(name) && i > 0 {
      FillKeeps(ps[1..], name, value, i - 1);
    }
  }

  /** A template without placeholders whose literals hold no `{` renders without `{`. */
  lemma {:induction false} RenderBraceFree(ps: seq<Piece>)
    requires WellFormed(ps) && NoSlots(ps)
    ensures '{' !in Render(ps)
  {
    if |ps| > 0 {
      var tail := ps[1..];
      assert WellFormed(tail) && NoSlots(tail) by {
        assert forall i :: 0 <= i < |tail| ==> tail[i] == ps[i + 1];
      }
      RenderBraceFree(tail);
    }
  }

  /** No occurrence of `pat` starts inside `a`: replacing in `a + b` replaces in `b`. */
  lemma {:induction false} ReplaceFirstPast(a: string, b: string, pat: string, rep: string)
    requires forall i :: 0 <= i < |a| ==> !OccursAt(a + b, pat, i)
    ensures ReplaceFirst(a + b, pat, rep) == a + ReplaceFirst(b, pat, rep)
  {
    var s := a + b;
    IndexOfShift(a, b, pat, 0);
    match IndexOf(b, pat)
    case None =>
      assert IndexOf(s, pat) == None;
    case Some(k) =>
      ReplaceShifted(a, b, pat, rep, k);
  }

  lemma {:induction false} ReplaceShifted(a: string, b: string, pat: string, rep: string, k: nat)
    requires IndexOf(b, pat) == Some(k) && IndexOf(a + b, pat) == Some(|a| + k)
    ensures ReplaceFirst(a + b, pat, rep) == a + ReplaceFirst(b, pat, rep)
  {
    var s := a + b;
    var x := b[..k];
    var z := b[k + |pat|..];
    assert ReplaceFirst(b, pat, rep) == x + rep + z;
    assert ReplaceFirst(s, pat, rep) == s[..|a| + k] + rep + s[|a| + k + |pat|..];
    SplitAfter(a, b, k);
    SplitAfter(a, b, k + |pat|);
    Regroup3(a, x, rep, z);
  }

  lemma SplitAfter(a: string, b: string, k: nat)
    requires k <= |b|
    ensures (a + b)[..|a| + k] == a + b[..k]
    ensures (a + b)[|a| + k..] == b[k..]
  {
  }

  lemma Regroup3(a: string, x: string, y: string, z: string)
    ensures a + x + y + z == a + (x + y + z)
  {
  }

  /** Searching `a + b` from inside `b` is searching `b`, shifted by `|a|`. */
  lemma {:induction false} IndexOfShift(a: string, b: string, pat: string, j: nat)
    requires forall i :: j <= i < |a| ==> !OccursAt(a + b, pat, i)
    requires j <= |a|
    ensures IndexOfFrom(a + b, pat, j) == (match IndexOf(b, pat) case None => None case Some(k) => Some(|a| + k))
    decreases |a| - j
  {
    if j < |a| {
      IndexOfShift(a, b, pat, j + 1);
    } else {
      IndexOfFromShift(a, b, pat, 0);
    }
  }

  lemma {:induction false} IndexOfFromShift(a: string, b: string, pat: string, k: nat)
    ensures IndexOfFrom(a + b, pat, |a| + k)
         == (match IndexOfFrom(b, pat, k) case None => None case Some(m) => Some(|a| + m))
    decreases |b| - k
  {
    var s := a + b;
    if |a| + k + |pat| <= |s| {
      assert s[|a| + k..|a| + k + |pat|] == b[k..k + |pat|];
      if !OccursAt(b, pat, k) {
        IndexOfFromShift(a, b, pat, k + 1);
      }
    }
  }

  /** `replace('{name}', value)` on a rendered template fills the first
      placeholder `name`, or changes nothing when there is none. */
  lemma {:induction false} ReplaceFills(ps: seq<Piece>, name: string, value: string)
    requires WellFormed(ps) && BraceFree(name)
    ensures ReplaceFirst(Render(ps), Placeholder(name), value) == Render(Fill(ps, name, value))
  {
    var pat := Placeholder(name);
    if |ps| == 0 {
      assert IndexOf("", pat) == None;
    } else {
      var tail := ps[1..];
      assert WellFormed(tail) by {
        assert forall i :: 0 <= i < |tail| ==> tail[i] == ps[i + 1];
      }
      var head := RenderPiece(ps[0]);
      assert Render(ps) == head + Render(tail);
      if ps[0] == Slot(name) {
        assert OccursAt(Render(ps), pat, 0) by {
          assert Render(ps)[..|pat|] == pat;
        }
        assert Render(ps)[|pat|..] == Render(tail);
        assert Render(Fill(ps, name, value)) == value + Render(tail) by {
          assert Fill(ps, name, value)[1..] == tail;
        }
      } else {
        forall i | 0 <= i < |head|
          ensures !OccursAt(head + Render(tail), pat, i)
        {
          NoOccurrenceInHead(ps[0], Render(tail), name, i);
        }
        ReplaceFirstPast(head, Render(tail), pat, value);
        ReplaceFills(tail, name, value);
        assert Fill(ps, name, value)[1..] == Fill(tail, name, value);
      }
    }
  }

  /** A piece other than the placeholder `name` cannot start an occurrence of `{name}`. */
  lemma NoOccurrenceInHead(p: Piece, rest: string, name: string, i: nat)
    requires p != Slot(name) && BraceFree(name)
    requires p.Lit? ==> '{' !in p.text
    requires p.Slot? ==> BraceFree(p.name)
    requires i < |RenderPiece(p)|
    ensures !OccursAt(RenderPiece(p) + rest, Placeholder(name), i)
  {
    match p
    case Lit(t) =>
      LitNoOccurrence(t, rest, name, i);
    case Slot(m) =>
      if i > 0 {
        SlotInsideNoOccurrence(m, rest, name, i);
      } else {
        SlotStartNoOccurrence(m, rest, name);
      }
  }

  lemma LitNoOccurrence(t: string, rest: string, name: string, i: nat)
    requires '{' !in t && i < |t|
    ensures !OccursAt(t + rest, Placeholder(name), i)
  {
    var s := t + rest;
    var pat := Placeholder(name);
    if i + |pat| <= |s| {
      assert s[i] == t[i] != pat[0];
      assert s[i..i + |pat|][0] != pat[0];
    }
  }

  lemma SlotInsideNoOccurrence(m: string, rest: string, name: string, i: nat)
    requires BraceFree(m) && 0 < i < |m| + 2
    ensures !OccursAt(Placeholder(m) + rest, Placeholder(name), i)
  {
    var q := Placeholder(m);
    var s := q + rest;
    var pat := Placeholder(name);
    if i + |pat| <= |s| {
      if i <= |m| {
        assert q[i] == m[i - 1];
      } else {
        assert q[i] == '}';
      }
      assert s[i] == q[i] != pat[0];
      assert s[i..i + |pat|][0] != pat[0];
    }
  }

  lemma SlotStartNoOccurrence(m: string, rest: string, name: string)
    requires BraceFree(m) && BraceFree(name) && m != name
    ensures !OccursAt(Placeholder(m) + rest, Placeholder(name), 0)
  {
    var q := Placeholder(m);
    var s := q + rest;
    var pat := Placeholder(name);
    if |pat| <= |s| {
      var w := s[..|pat|];
      if |name| < |m| {
        assert w[|name| + 1] == q[|name| + 1] == m[|name|];
        assert pat[|name| + 1] == '}';
        assert w[|name| + 1] != pat[|name| + 1];
      } else if |name| > |m| {
        assert w[|m| + 1] == q[|m| + 1] == '}';
        assert pat[|m| + 1] == name[|m|];
        assert w[|m| + 1] != pat[|m| + 1];
      } else {
        var j :| 0 <= j < |m| && name[j] != m[j];
        assert w[j + 1] == m[j] && pat[j + 1] == name[j];
        assert w[j + 1] != pat[j + 1];
      }
    }
  }
}
