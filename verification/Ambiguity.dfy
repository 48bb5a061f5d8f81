/** Exactly when a canonical form is ambiguous (internal/model/fingerprint.go): some other seven
    field values are hashed as the same text. */
module Ambiguity {
  import opened Dates
  import opened Fingerprint

  /** What starts a field's line, with the line ending before it. */
  function Separator(i: nat): string
    requires i < 7
  {
    "\n" + Name(i) + "="
  }

  predicate OccursAt(s: string, t: string, k: nat) {
    k + |t| <= |s| && s[k..k + |t|] == t
  }

  /** A field, or the one before it, contains the text that starts the field's own line. */
  predicate ImitatedAt(v: seq<string>, i: nat, k: nat)
    requires |v| == 7
  {
    1 <= i <= 6 && (OccursAt(v[i - 1], Separator(i), k) || OccursAt(v[i], Separator(i), k))
  }

  /** A field contains the text that starts its own line. */
  predicate ImitatesItself(v: seq<string>, i: nat, k: nat)
    requires |v| == 7
  {
    1 <= i <= 6 && OccursAt(v[i], Separator(i), k)
  }

  /** The line after a field starts inside it, and what comes before is the other reading's field. */
  predicate CutShort(v: seq<string>, w: seq<string>, i: nat, k: nat)
    requires |v| == |w| == 7
  {
    1 <= i <= 6 && OccursAt(v[i - 1], Separator(i), k) && v[i - 1][..k] == w[i - 1]
  }

  ghost predicate Imitated(v: seq<string>)
    requires |v| == 7
  {
    exists i: nat, k: nat :: ImitatedAt(v, i, k)
  }

  ghost predicate Ambiguous(v: seq<string>)
    requires |v| == 7
  {
    exists w: seq<string> :: |w| == 7 && w != v && Lines(w, 0) == Lines(v, 0)
  }

  lemma NamesArePlain(i: nat)
    requires i < 7
    ensures '\n' !in Name(i) && '=' !in Name(i)
  {
  }

  lemma NamesDiffer(i: nat, j: nat)
    requires i < 7 && j < 7 && i != j
    ensures Name(i) != Name(j)
  {
  }

  /** No line can be read as starting with two names. */
  lemma OneNamePerLine(text: string, i: nat, j: nat)
    requires i < 7 && j < 7 && Name(i) + "=" <= text && Name(j) + "=" <= text
    ensures i == j
  {
    hide Name;
    NamesArePlain(i);
    NamesArePlain(j);
    var (a, b) := (Name(i), Name(j));
    assert forall x | 0 <= x < |a| :: a[x] == (a + "=")[x] == text[x];
    assert forall x | 0 <= x < |b| :: b[x] == (b + "=")[x] == text[x];
    assert (a + "=")[|a|] == text[|a|] == '=' && (b + "=")[|b|] == text[|b|] == '=';
    assert |a| == |b|;
    assert a == b;
    if i != j {
      NamesDiffer(i, j);
    }
  }

  // ----- how text around line endings comes apart -----

  lemma PrefixCut(p: string, a: string, b: string)
    requires p + a == p + b
    ensures a == b
  {
    assert (p + a)[|p|..] == a && (p + b)[|p|..] == b;
  }

  lemma LineCut(x: string, m: string, y: string, n: string)
    requires x + "\n" + m == y + "\n" + n && |x| <= |y|
    ensures |x| == |y| ==> x == y && m == n
    ensures |x| < |y| ==> y == x + "\n" + y[|x| + 1..] && m == y[|x| + 1..] + "\n" + n
  {
    var (s, t) := (x + "\n" + m, y + "\n" + n);
    assert s[..|x|] == x && t[..|y|] == y && s[|x| + 1..] == m && t[|y| + 1..] == n;
    if |x| < |y| {
      assert t[..|y|][..|x|] == s[..|x|];
      assert y[|x|] == t[|x|] == s[|x|] == '\n';
      assert y == y[..|x|] + [y[|x|]] + y[|x| + 1..];
      assert t[|x| + 1..] == y[|x| + 1..] + "\n" + n;
    }
  }

  lemma PrefixInside(p: string, z: string, rest: string)
    requires p <= z + "\n" + rest && '\n' !in p
    ensures p <= z
  {
    var t := z + "\n" + rest;
    assert forall x | 0 <= x < |p| :: p[x] == t[x];
    assert t[|z|] == '\n';
    assert |p| <= |z|;
  }

  lemma OccursBetween(a: string, t: string, b: string)
    ensures OccursAt(a + t + b, t, |a|)
  {
  }

  lemma StartsLine(v: seq<string>, i: nat)
    requires |v| == 7 && i < 7
    ensures Lines(v, i) == (Name(i) + "=" + v[i]) + "\n" + Lines(v, i + 1)
    ensures Lines(v, i) == (Name(i) + "=") + (v[i] + "\n" + Lines(v, i + 1))
    ensures Name(i) + "=" <= Lines(v, i)
  {
    hide Name;
  }

  lemma LastLine(v: seq<string>)
    requires |v| == 7
    ensures Lines(v, 7) == ""
  {
  }

  lemma NameIsPlain(i: nat)
    requires i < 7
    ensures '\n' !in Name(i) + "="
  {
  }

  /** A field that goes on with a line starting like the i-th contains its separator. */
  lemma Contains(field: string, before: string, z: string, rest: string, i: nat)
    requires i < 7 && field == before + "\n" + z && Name(i) + "=" <= z + "\n" + rest
    ensures OccursAt(field, Separator(i), |before|)
  {
    hide Name;
    NameIsPlain(i);
    var p := Name(i) + "=";
    PrefixInside(p, z, rest);
    assert z == p + z[|p|..];
    assert field == before + Separator(i) + z[|p|..];
    OccursBetween(before, Separator(i), z[|p|..]);
  }

  /** When w's lines from the i-th on sit further right in v's text than v's own do, following
      them to the end runs into a field of v that imitates its own line. */
  lemma {:induction false} Chase(v: seq<string>, w: seq<string>, i: nat, u: string)
    requires |v| == |w| == 7 && 1 <= i <= 7 && Lines(v, i) == u + "\n" + Lines(w, i)
    ensures exists j: nat, k: nat :: i <= j && ImitatesItself(v, j, k)
    decreases 7 - i
  {
    hide Name, Lines, Separator, OccursAt;
    LastLine(v);
    if i < 7 {
      StartsLine(v, i);
      StartsLine(w, i);
      NameIsPlain(i);
      var (p, tail) := (Name(i) + "=", Lines(v, i + 1));
      var head := p + v[i];
      if |u| < |head| {
        LineCut(u, Lines(w, i), head, tail);
        var z := head[|u| + 1..];
        assert |u| >= |p| by {
          assert head[|u|] == '\n';
        }
        assert v[i] == head[|p|..] == u[|p|..] + "\n" + z;
        Contains(v[i], u[|p|..], z, tail, i);
        assert ImitatesItself(v, i, |u[|p|..]|);
      } else if |u| == |head| {
        LineCut(head, tail, u, Lines(w, i));
        if i < 6 {
          StartsLine(v, i + 1);
          OneNamePerLine(tail, i, i + 1);
        }
      } else {
        LineCut(head, tail, u, Lines(w, i));
        var z := u[|head| + 1..];
        Chase(v, w, i + 1, z + "\n" + (p + w[i]));
      }
    }
  }

  /** Two readings of one text part ways at some field. There the line after that field starts inside
      it, leaving exactly the other reading's field; or a later field imitates its own line. */
  lemma {:induction false} PartingIsImitation(v: seq<string>, w: seq<string>, i: nat)
    requires |v| == |w| == 7 && i <= 7 && Lines(v, i) == Lines(w, i) && v[i..] != w[i..]
    ensures exists j: nat, k: nat :: i < j && (ImitatesItself(v, j, k) || CutShort(v, w, j, k))
    decreases 7 - i
  {
    hide Name, Lines, Separator, OccursAt;
    if i < 7 {
      StartsLine(v, i);
      StartsLine(w, i);
      PrefixCut(Name(i) + "=", v[i] + "\n" + Lines(v, i + 1), w[i] + "\n" + Lines(w, i + 1));
      if |v[i]| <= |w[i]| {
        LineCut(v[i], Lines(v, i + 1), w[i], Lines(w, i + 1));
        if |v[i]| == |w[i]| {
          assert v[i..] == [v[i]] + v[i + 1..] && w[i..] == [w[i]] + w[i + 1..];
          PartingIsImitation(v, w, i + 1);
        } else {
          Chase(v, w, i + 1, w[i][|v[i]| + 1..]);
        }
      } else {
        LineCut(w[i], Lines(w, i + 1), v[i], Lines(v, i + 1));
        LastLine(w);
        if i < 6 {
          StartsLine(w, i + 1);
          Contains(v[i], w[i], v[i][|w[i]| + 1..], Lines(v, i + 1), i + 1);
          assert v[i][..|w[i]|] == w[i];
          assert CutShort(v, w, i + 1, |w[i]|);
        }
      }
    }
  }

  lemma Around(s: string, t: string, k: nat)
    requires OccursAt(s, t, k)
    ensures s == s[..k] + t + s[k + |t|..]
  {
  }

  lemma Shift(a: string, b: string, p: string, q: string, x: string, rest: string)
    ensures (a + "=" + (p + ("\n" + b + "=") + q)) + "\n" + ((b + "=" + x) + "\n" + rest)
            == (a + "=" + p) + "\n" + ((b + "=" + (q + ("\n" + b + "=") + x)) + "\n" + rest)
  {
  }

  lemma {:induction false} SameTail(v: seq<string>, w: seq<string>, i: nat)
    requires |v| == |w| == 7 && i <= 7 && v[i..] == w[i..]
    ensures Lines(v, i) == Lines(w, i)
    decreases 7 - i
  {
    if i < 7 {
      assert v[i] == v[i..][0] == w[i..][0] == w[i];
      assert v[i + 1..] == v[i..][1..] == w[i..][1..] == w[i + 1..];
      SameTail(v, w, i + 1);
    }
  }

  lemma SeparatorNonEmpty(i: nat)
    requires i < 7
    ensures |Separator(i)| >= 2
  {
  }

  lemma BoundaryMovesInside(v: seq<string>, w: seq<string>, i: nat, p: string, q: string, x: string)
    requires |v| == |w| == 7 && 1 <= i <= 6 && v[..i - 1] == w[..i - 1] && v[i + 1..] == w[i + 1..]
    requires v[i - 1] == p + Separator(i) + q && v[i] == x
    requires w[i - 1] == p && w[i] == q + Separator(i) + x
    ensures Lines(v, 0) == Lines(w, 0)
  {
    hide Name, Lines;
    SameTail(v, w, i + 1);
    StartsLine(v, i - 1);
    StartsLine(v, i);
    StartsLine(w, i - 1);
    StartsLine(w, i);
    Shift(Name(i - 1), Name(i), p, q, x, Lines(v, i + 1));
    SameHead(v, w, i - 1, 0);
  }

  /** Conversely, an imitated line can be read as the line itself. */
  lemma ImitationParts(v: seq<string>, i: nat, k: nat)
    requires |v| == 7 && ImitatedAt(v, i, k)
    ensures Ambiguous(v)
  {
    hide Name, Lines, Separator;
    var sep := Separator(i);
    if OccursAt(v[i - 1], sep, k) {
      Around(v[i - 1], sep, k);
      var (p, q) := (v[i - 1][..k], v[i - 1][k + |sep|..]);
      var w := v[i - 1 := p][i := q + sep + v[i]];
      BoundaryMovesInside(v, w, i, p, q, v[i]);
      SeparatorNonEmpty(i);
      assert |w[i - 1]| < |v[i - 1]|;
    } else {
      Around(v[i], sep, k);
      var (q, x) := (v[i][..k], v[i][k + |sep|..]);
      var w := v[i - 1 := v[i - 1] + sep + q][i := x];
      BoundaryMovesInside(w, v, i, v[i - 1], q, x);
      SeparatorNonEmpty(i);
      assert |w[i - 1]| > |v[i - 1]|;
    }
  }

  /** The canonical form identifies its fields exactly when none of them, and no field before one,
      contains the text that starts that field's line. */
  lemma AmbiguousIffImitated(v: seq<string>)
    requires |v| == 7
    ensures Ambiguous(v) <==> Imitated(v)
  {
    hide Name, Lines, Separator, OccursAt;
    if Ambiguous(v) {
      var w: seq<string> :| |w| == 7 && w != v && Lines(w, 0) == Lines(v, 0);
      assert v[0..] == v && w[0..] == w;
      PartingIsImitation(v, w, 0);
      var j: nat, k: nat :| 0 < j && (ImitatesItself(v, j, k) || CutShort(v, w, j, k));
      assert ImitatedAt(v, j, k);
    }
    if Imitated(v) {
      var i: nat, k: nat :| ImitatedAt(v, i, k);
      ImitationParts(v, i, k);
    }
  }

  lemma SeparatorHasNewline(s: string, i: nat, k: nat)
    requires i < 7 && OccursAt(s, Separator(i), k)
    ensures '\n' in s
  {
    assert s[k] == s[k..k + |Separator(i)|][0];
  }

  lemma NewlineFreeIsNotImitated(v: seq<string>)
    requires |v| == 7 && NewlineFree(v)
    ensures !Imitated(v)
  {
    hide Separator, OccursAt;
    if i: nat, k: nat :| ImitatedAt(v, i, k) {
      if OccursAt(v[i - 1], Separator(i), k) {
        SeparatorHasNewline(v[i - 1], i, k);
      } else {
        SeparatorHasNewline(v[i], i, k);
      }
    }
  }

  // ----- the same, for requests: two of the values are dates, and the others are trimmed -----

  predicate IsTrimmed(s: string) {
    TrimSpace(s) == s
  }

  predicate TrimmedFrom(v: seq<string>, i: nat)
    requires |v| == 7
  {
    forall j | i <= j < 7 :: IsTrimmed(v[j])
  }

  /** Every way to read a text as the lines of trimmed fields, from the i-th on. */
  function Readings(text: string, i: nat): set<seq<string>>
    requires i <= 7
    decreases 7 - i
  {
    if i == 7 then if text == "" then {[]} else {}
    else
      var prefix := Name(i) + "=";
      if !(prefix <= text) then {} else
        var rest := text[|prefix|..];
        set k: nat, more | k < |rest| && rest[k] == '\n' && IsTrimmed(rest[..k])
                           && more in Readings(rest[k + 1..], i + 1)
          :: [rest[..k]] + more
  }

  /** A request whose text can be read in one way only. */
  predicate OnlyReading(r: CreateRequest) {
    Readings(Lines(Values(r), 2), 2) == {Values(r)[2..]}
  }

  /** How a reading starts: with a trimmed field that ends at some newline. */
  lemma FirstField(text: string, i: nat, m: seq<string>) returns (k: nat, more: seq<string>)
    requires i < 7 && m in Readings(text, i)
    ensures var prefix := Name(i) + "=";
            && prefix <= text
            && var rest := text[|prefix|..];
               && k < |rest| && rest[k] == '\n' && IsTrimmed(rest[..k])
               && more in Readings(rest[k + 1..], i + 1) && m == [rest[..k]] + more
  {
    hide Name, IsTrimmed;
    var rest := text[|Name(i) + "="|..];
    k, more :| k < |rest| && rest[k] == '\n' && IsTrimmed(rest[..k])
               && more in Readings(rest[k + 1..], i + 1) && m == [rest[..k]] + more;
  }

  lemma NothingLeft(text: string, m: seq<string>)
    requires m in Readings(text, 7)
    ensures text == "" && m == []
  {
  }

  lemma {:induction false} ReadingsAreSound(text: string, i: nat, m: seq<string>, v: seq<string>)
    requires |v| == 7 && i <= 7 && m in Readings(text, i) && v[i..] == m
    ensures Lines(v, i) == text && TrimmedFrom(v, i)
    decreases 7 - i
  {
    hide Name, IsTrimmed, Lines, Readings;
    LastLine(v);
    if i == 7 {
      NothingLeft(text, m);
    } else {
      var k, more := FirstField(text, i, m);
      var prefix := Name(i) + "=";
      var rest := text[|prefix|..];
      assert v[i] == v[i..][0] == rest[..k] && v[i + 1..] == v[i..][1..] == more;
      ReadingsAreSound(rest[k + 1..], i + 1, more, v);
      StartsLine(v, i);
      assert rest == rest[..k] + "\n" + rest[k + 1..];
      assert text == prefix + rest;
    }
  }

  lemma {:induction false} ReadingsAreComplete(v: seq<string>, i: nat)
    requires |v| == 7 && i <= 7 && TrimmedFrom(v, i)
    ensures v[i..] in Readings(Lines(v, i), i)
    decreases 7 - i
  {
    hide Name, IsTrimmed, Line, Lines;
    LastLine(v);
    if i < 7 {
      StartsLine(v, i);
      ReadingsAreComplete(v, i + 1);
      var (text, prefix, k) := (Lines(v, i), Name(i) + "=", |v[i]|);
      var rest := text[|prefix|..];
      assert rest == v[i] + "\n" + Lines(v, i + 1);
      assert rest[k] == '\n' && rest[..k] == v[i] && rest[k + 1..] == Lines(v, i + 1);
      assert [v[i]] + v[i + 1..] == v[i..];
      assert [rest[..k]] + v[i + 1..] in Readings(text, i);
    } else {
      assert v[i..] == [];
    }
  }

  lemma {:induction false} ReadingsHaveLength(text: string, i: nat, m: seq<string>)
    requires i <= 7 && m in Readings(text, i)
    ensures |m| == 7 - i
    decreases 7 - i
  {
    hide Name, IsTrimmed, Readings;
    if i < 7 {
      var k, more := FirstField(text, i, m);
      ReadingsHaveLength(text[|Name(i) + "="|..][k + 1..], i + 1, more);
    } else {
      NothingLeft(text, m);
    }
  }

  lemma {:induction false} TrimIsTrimmed(s: string)
    ensures IsTrimmed(TrimSpace(s))
  {
    if s != "" && IsSpace(s[0]) {
      TrimIsTrimmed(s[1..]);
    } else if s != "" && IsSpace(s[|s| - 1]) {
      TrimIsTrimmed(s[..|s| - 1]);
    }
  }

  lemma ValuesAreTrimmed(r: CreateRequest)
    ensures TrimmedFrom(Values(r), 2)
  {
    TrimIsTrimmed(r.distributor);
    TrimIsTrimmed(r.firstName);
    TrimIsTrimmed(r.lastName);
    TrimIsTrimmed(r.property);
    TrimIsTrimmed(r.room);
  }

  lemma ValuesDecide(a: CreateRequest, b: CreateRequest)
    ensures Values(a) == Values(b) <==> SameRequest(a, b)
  {
    hide TrimSpace, FormatDate, SameRequest;
    SameRequestTrims(a, b);
    DateIsExact(a.checkIn, b.checkIn);
    DateIsExact(a.checkOut, b.checkOut);
    var (v, w) := (Values(a), Values(b));
    if v == w {
      assert v[0] == w[0] && v[1] == w[1] && v[2] == w[2] && v[3] == w[3];
      assert v[4] == w[4] && v[5] == w[5] && v[6] == w[6];
    }
  }

  lemma DatesArePlain(d: Date)
    ensures |FormatDate(d)| == 10 && '\n' !in FormatDate(d)
  {
  }

  /** The two date lines are read in one way only. */
  lemma DatesCannotPart(a: CreateRequest, b: CreateRequest)
    requires Canonical(a) == Canonical(b)
    ensures Values(a)[..2] == Values(b)[..2] && Lines(Values(a), 2) == Lines(Values(b), 2)
  {
    hide Name, Lines, FormatDate, TrimSpace;
    var (v, w) := (Values(a), Values(b));
    DatesArePlain(a.checkIn);
    DatesArePlain(a.checkOut);
    DatesArePlain(b.checkIn);
    DatesArePlain(b.checkOut);
    StartsLine(v, 0);
    StartsLine(w, 0);
    PrefixCut(Name(0) + "=", v[0] + "\n" + Lines(v, 1), w[0] + "\n" + Lines(w, 1));
    LineCut(v[0], Lines(v, 1), w[0], Lines(w, 1));
    StartsLine(v, 1);
    StartsLine(w, 1);
    PrefixCut(Name(1) + "=", v[1] + "\n" + Lines(v, 2), w[1] + "\n" + Lines(w, 2));
    LineCut(v[1], Lines(v, 2), w[1], Lines(w, 2));
    assert v[..2] == [v[0], v[1]] && w[..2] == [w[0], w[1]];
  }

  /** The request another reading of the same text stands for. */
  function Reread(r: CreateRequest, m: seq<string>): CreateRequest
    requires |m| == 5
  {
    r.(distributor := m[0], firstName := m[1], lastName := m[2], property := m[3], room := m[4])
  }

  lemma RereadCollides(r: CreateRequest, m: seq<string>)
    requires m in Readings(Lines(Values(r), 2), 2) && m != Values(r)[2..]
    ensures |m| == 5 && Canonical(Reread(r, m)) == Canonical(r) && !SameRequest(r, Reread(r, m))
  {
    hide TrimSpace, FormatDate, Readings, Lines, SameRequest;
    var v := Values(r);
    ReadingsHaveLength(Lines(v, 2), 2, m);
    var w := v[..2] + m;
    assert w[2..] == m && w[..2] == v[..2];
    ReadingsAreSound(Lines(v, 2), 2, m, w);
    assert forall j | 2 <= j < 7 :: IsTrimmed(w[j]);
    var b := Reread(r, m);
    assert Values(b) == w by {
      assert w[2] == m[0] && w[3] == m[1] && w[4] == m[2] && w[5] == m[3] && w[6] == m[4];
    }
    SameHead(v, w, 2, 0);
    ValuesDecide(r, b);
  }

  /** For such a request, fingerprints agree exactly when the requests do, whatever the other holds. */
  lemma FingerprintIsExact(a: CreateRequest, b: CreateRequest)
    requires OnlyReading(a)
    ensures Canonical(a) == Canonical(b) <==> SameRequest(a, b)
  {
    hide Readings, Lines, SameRequest, TrimSpace, FormatDate;
    var (v, w) := (Values(a), Values(b));
    ValuesDecide(a, b);
    if Canonical(a) == Canonical(b) {
      DatesCannotPart(a, b);
      ValuesAreTrimmed(b);
      ReadingsAreComplete(w, 2);
      assert v == v[..2] + v[2..] && w == w[..2] + w[2..];
    }
  }

  /** Exactly when a fingerprint identifies its request: the hashed text can be read in one way only
      as trimmed fields. Whoever holds the request can count its readings. */
  lemma FingerprintIdentifiesIff(a: CreateRequest)
    ensures (forall b :: Canonical(a) == Canonical(b) ==> SameRequest(a, b)) <==> OnlyReading(a)
  {
    hide Readings, Lines, SameRequest, TrimSpace, FormatDate;
    var v := Values(a);
    ValuesAreTrimmed(a);
    ReadingsAreComplete(v, 2);
    if OnlyReading(a) {
      forall b | Canonical(a) == Canonical(b)
        ensures SameRequest(a, b)
      {
        FingerprintIsExact(a, b);
      }
    } else {
      var m :| m in Readings(Lines(v, 2), 2) && m != v[2..];
      RereadCollides(a, m);
    }
  }

  predicate CutsTrimmed(v: seq<string>, j: nat, k: nat)
    requires |v| == 7
  {
    1 <= j <= 6 && OccursAt(v[j - 1], Separator(j), k) && IsTrimmed(v[j - 1][..k])
  }

  /** What a second reading takes: in one of the last four lines, a field contains the text that
      starts its own line, or contains the next one's and has no space before it. */
  ghost predicate Rereadable(v: seq<string>)
    requires |v| == 7
  {
    exists j: nat, k: nat :: 3 <= j && (ImitatesItself(v, j, k) || CutsTrimmed(v, j, k))
  }

  lemma SecondReadingImitates(v: seq<string>, w: seq<string>)
    requires |v| == |w| == 7 && Lines(v, 2) == Lines(w, 2) && v[2..] != w[2..] && TrimmedFrom(w, 2)
    ensures Rereadable(v)
  {
    hide Lines, OccursAt, Separator, IsTrimmed;
    PartingIsImitation(v, w, 2);
    var j: nat, k: nat :| 2 < j && (ImitatesItself(v, j, k) || CutShort(v, w, j, k));
    assert IsTrimmed(w[j - 1]);
    assert ImitatesItself(v, j, k) || CutsTrimmed(v, j, k);
  }

  /** A local test that suffices: a request none of whose last four lines is so imitated has one
      reading. The distributor's own line, and pieces a trim would change, do not matter. */
  lemma NotRereadable(a: CreateRequest)
    requires !Rereadable(Values(a))
    ensures OnlyReading(a)
  {
    hide Readings, Lines, TrimSpace, FormatDate, Rereadable;
    var v := Values(a);
    ValuesAreTrimmed(a);
    ReadingsAreComplete(v, 2);
    forall m | m in Readings(Lines(v, 2), 2)
      ensures m == v[2..]
    {
      ReadingsHaveLength(Lines(v, 2), 2, m);
      var w := v[..2] + m;
      assert w[2..] == m;
      ReadingsAreSound(Lines(v, 2), 2, m, w);
      if m != v[2..] {
        SecondReadingImitates(v, w);
        assert false;
      }
    }
  }

  /** Texts with the same fields up to the i-th agree from there on. */
  lemma {:induction false} LinesFrom(v: seq<string>, w: seq<string>, i: nat)
    requires |v| == |w| == 7 && i <= 2 && v[..2] == w[..2] && Lines(v, 0) == Lines(w, 0)
    ensures Lines(v, i) == Lines(w, i)
  {
    if i > 0 {
      LinesFrom(v, w, i - 1);
      assert v[i - 1] == v[..2][i - 1] == w[..2][i - 1] == w[i - 1];
      StartsLine(v, i - 1);
      StartsLine(w, i - 1);
      var p := (Name(i - 1) + "=" + v[i - 1]) + "\n";
      assert Lines(v, i - 1) == p + Lines(v, i) && Lines(w, i - 1) == p + Lines(w, i);
      PrefixCut(p, Lines(v, i), Lines(w, i));
    }
  }

  /** Conversely, one boundary moved between trimmed pieces is a second reading. The first form moves
      a line's start into the field before it, the second into its own field. */
  lemma MovedBoundaryCollides(a: CreateRequest, i: nat, k: nat, w: seq<string>)
    requires 3 <= i <= 6 && |w| == 7
    requires var (v, sep) := (Values(a), Separator(i));
             || (&& OccursAt(v[i - 1], sep, k)
                 && w == v[i - 1 := v[i - 1][..k]][i := v[i - 1][k + |sep|..] + sep + v[i]])
             || (&& OccursAt(v[i], sep, k)
                 && w == v[i - 1 := v[i - 1] + sep + v[i][..k]][i := v[i][k + |sep|..]])
    requires IsTrimmed(w[i - 1]) && IsTrimmed(w[i])
    ensures !OnlyReading(a) && exists b :: Canonical(a) == Canonical(b) && !SameRequest(a, b)
  {
    hide Readings, Lines, TrimSpace, FormatDate, Name, Separator, SameRequest;
    var (v, sep) := (Values(a), Separator(i));
    SeparatorNonEmpty(i);
    if OccursAt(v[i - 1], sep, k) && w == v[i - 1 := v[i - 1][..k]][i := v[i - 1][k + |sep|..] + sep + v[i]] {
      Around(v[i - 1], sep, k);
      BoundaryMovesInside(v, w, i, v[i - 1][..k], v[i - 1][k + |sep|..], v[i]);
      assert |w[i - 1]| < |v[i - 1]|;
    } else {
      Around(v[i], sep, k);
      BoundaryMovesInside(w, v, i, v[i - 1], v[i][..k], v[i][k + |sep|..]);
      assert |w[i - 1]| > |v[i - 1]|;
    }
    ValuesAreTrimmed(a);
    assert w[..2] == v[..2] && w[..i - 1] == v[..i - 1];
    LinesFrom(v, w, 2);
    assert forall j | 2 <= j < 7 :: IsTrimmed(w[j]);
    ReadingsAreComplete(w, 2);
    assert w[i - 1] != v[i - 1] && w[2..][i - 3] == w[i - 1] && v[2..][i - 3] == v[i - 1];
    RereadCollides(a, w[2..]);
  }

  /** Where the local test stops short of the exact one: the rest of the split field starts with a
      space, so no request could hash it there, yet the piece before it looks right. */
  predicate SplitAtSpace(v: seq<string>, p: string, q: string)
    requires |v| == 7
  {
    && '\n' !in p && '\n' !in q && v[5] == p + Separator(6) + (" " + q)
    && '\n' !in v[2] && '\n' !in v[3] && '\n' !in v[4] && '\n' !in v[6]
  }

  lemma SplitHasOneNewline(v: seq<string>, p: string, q: string, k: nat)
    requires |v| == 7 && SplitAtSpace(v, p, q) && k < |v[5]| && v[5][k] == '\n'
    ensures k == |p| && v[5][k + 1..] == (Name(6) + "=") + (" " + q)
  {
    hide Name;
    NameIsPlain(6);
    assert v[5] == p + "\n" + ((Name(6) + "=") + (" " + q));
  }

  lemma SplitImitatesNoLine(v: seq<string>, p: string, q: string, j: nat, k: nat)
    requires |v| == 7 && SplitAtSpace(v, p, q) && 3 <= j <= 6
    ensures !ImitatesItself(v, j, k)
  {
    hide Name;
    if ImitatesItself(v, j, k) {
      assert v[j][k] == v[j][k..k + |Separator(j)|][0] == '\n';
      SplitHasOneNewline(v, p, q, k);
      assert v[5][k..k + |Separator(5)|][1..] == Name(5) + "=";
      assert Name(5) + "=" <= v[5][k + 1..] && Name(6) + "=" <= v[5][k + 1..];
      OneNamePerLine(v[5][k + 1..], 5, 6);
      assert false;
    }
  }

  lemma PlainFieldIsRead(v: seq<string>, w: seq<string>, i: nat, p: string, q: string)
    requires |v| == |w| == 7 && 2 <= i <= 4 && SplitAtSpace(v, p, q) && Lines(v, i) == Lines(w, i)
    ensures v[i] == w[i] && Lines(v, i + 1) == Lines(w, i + 1)
  {
    hide Name, Lines;
    StartsLine(v, i);
    StartsLine(w, i);
    PrefixCut(Name(i) + "=", v[i] + "\n" + Lines(v, i + 1), w[i] + "\n" + Lines(w, i + 1));
    if |v[i]| <= |w[i]| {
      LineCut(v[i], Lines(v, i + 1), w[i], Lines(w, i + 1));
      if |v[i]| < |w[i]| {
        Chase(v, w, i + 1, w[i][|v[i]| + 1..]);
        var j: nat, k: nat :| i + 1 <= j && ImitatesItself(v, j, k);
        SplitImitatesNoLine(v, p, q, j, k);
        assert false;
      }
    } else {
      LineCut(w[i], Lines(w, i + 1), v[i], Lines(v, i + 1));
      assert false;
    }
  }

  lemma {:induction false} TrimShortens(s: string)
    ensures |TrimSpace(s)| <= |s|
  {
    if s != "" && IsSpace(s[0]) {
      TrimShortens(s[1..]);
    } else if s != "" && IsSpace(s[|s| - 1]) {
      TrimShortens(s[..|s| - 1]);
    }
  }

  lemma SpaceIsNoField(s: string)
    requires s != "" && s[0] == ' '
    ensures !IsTrimmed(s)
  {
    TrimShortens(s[1..]);
  }

  lemma NewlineAfter(x: string, y: string, z: string)
    requires y == x + "\n" + z
    ensures |x| < |y| && y[|x|] == '\n'
  {
  }

  lemma Regroup(name: string, q: string, rest: string)
    ensures ((name + "=") + (" " + q)) + "\n" + rest == (name + "=") + (" " + q + "\n" + rest)
  {
  }

  lemma SpaceFirst(w: seq<string>, q: string, rest: string)
    requires |w| == 7 && Lines(w, 6) == ((Name(6) + "=") + (" " + q)) + "\n" + rest
    ensures !IsTrimmed(w[6])
  {
    hide Name, Lines, IsTrimmed;
    StartsLine(w, 6);
    Regroup(Name(6), q, rest);
    var (field, other) := (w[6] + "\n" + Lines(w, 7), " " + q + "\n" + rest);
    PrefixCut(Name(6) + "=", field, other);
    assert field[0] == other[0] == ' ';
    SpaceIsNoField(w[6]);
  }

  lemma SplitFieldIsRead(v: seq<string>, w: seq<string>, p: string, q: string)
    requires |v| == |w| == 7 && SplitAtSpace(v, p, q) && Lines(v, 5) == Lines(w, 5) && IsTrimmed(w[6])
    ensures v[5] == w[5] && Lines(v, 6) == Lines(w, 6)
  {
    hide Name, Lines, IsTrimmed, SplitAtSpace, Separator;
    StartsLine(v, 5);
    StartsLine(w, 5);
    PrefixCut(Name(5) + "=", v[5] + "\n" + Lines(v, 6), w[5] + "\n" + Lines(w, 6));
    if |v[5]| <= |w[5]| {
      LineCut(v[5], Lines(v, 6), w[5], Lines(w, 6));
      if |v[5]| < |w[5]| {
        Chase(v, w, 6, w[5][|v[5]| + 1..]);
        var j: nat, k: nat :| 6 <= j && ImitatesItself(v, j, k);
        SplitImitatesNoLine(v, p, q, j, k);
        assert false;
      }
    } else {
      LineCut(w[5], Lines(w, 6), v[5], Lines(v, 6));
      NewlineAfter(w[5], v[5], v[5][|w[5]| + 1..]);
      SplitHasOneNewline(v, p, q, |w[5]|);
      SpaceFirst(w, q, Lines(v, 6));
      assert false;
    }
  }

  lemma LastFieldIsRead(v: seq<string>, w: seq<string>)
    requires |v| == |w| == 7 && Lines(v, 6) == Lines(w, 6)
    ensures v[6] == w[6]
  {
    hide Name, Lines;
    StartsLine(v, 6);
    StartsLine(w, 6);
    LastLine(v);
    LastLine(w);
    PrefixCut(Name(6) + "=", v[6] + "\n" + "", w[6] + "\n" + "");
    assert (v[6] + "\n" + "")[..|v[6] + "\n" + ""| - 1] == v[6];
    assert (w[6] + "\n" + "")[..|w[6] + "\n" + ""| - 1] == w[6];
  }

  /** Requests the local test gives up on that are identified by their fingerprint all the same. */
  lemma LocalTestStops(a: CreateRequest, p: string, q: string)
    requires SplitAtSpace(Values(a), p, q) && IsTrimmed(p)
    ensures Rereadable(Values(a)) && OnlyReading(a)
  {
    hide Readings, Lines, TrimSpace, FormatDate, Name;
    var v := Values(a);
    assert v[5][..|p|] == p;
    OccursBetween(p, Separator(6), " " + q);
    assert CutsTrimmed(v, 6, |p|);
    ValuesAreTrimmed(a);
    ReadingsAreComplete(v, 2);
    forall m | m in Readings(Lines(v, 2), 2)
      ensures m == v[2..]
    {
      ReadingsHaveLength(Lines(v, 2), 2, m);
      var w := v[..2] + m;
      assert w[2..] == m;
      ReadingsAreSound(Lines(v, 2), 2, m, w);
      PlainFieldIsRead(v, w, 2, p, q);
      PlainFieldIsRead(v, w, 3, p, q);
      PlainFieldIsRead(v, w, 4, p, q);
      SplitFieldIsRead(v, w, p, q);
      LastFieldIsRead(v, w);
      assert m == [w[2], w[3], w[4], w[5], w[6]] && v[2..] == [v[2], v[3], v[4], v[5], v[6]];
    }
  }

  lemma RereadableIsImitated(v: seq<string>)
    requires |v| == 7 && Rereadable(v)
    ensures Imitated(v)
  {
    hide OccursAt, Separator, IsTrimmed;
    var j: nat, k: nat :| 3 <= j && (ImitatesItself(v, j, k) || CutsTrimmed(v, j, k));
    assert ImitatedAt(v, j, k);
  }

  lemma NewlineFreeIsOnlyReading(a: CreateRequest)
    requires NewlineFree(Values(a))
    ensures OnlyReading(a)
  {
    hide OnlyReading, Rereadable, Imitated, NewlineFree;
    var v := Values(a);
    NewlineFreeIsNotImitated(v);
    if Rereadable(v) {
      RereadableIsImitated(v);
      assert false;
    }
    NotRereadable(a);
  }

  /** Real requests do collide: any property name that imitates the room's line. */
  lemma RequestsCollide(r: CreateRequest, p: string, q: string, x: string)
    requires Trimmed(p) && Trimmed(q) && Trimmed(x)
    ensures var sep := Separator(6);
            var (a, b) := (r.(property := p + sep + q, room := x), r.(property := p, room := q + sep + x));
            !SameRequest(a, b) && Canonical(a) == Canonical(b)
  {
    hide Name, Lines, FormatDate, IsSpace, Line, SameRequest;
    var sep := Separator(6);
    var (a, b) := (r.(property := p + sep + q, room := x), r.(property := p, room := q + sep + x));
    TrimmedAround(p, sep, q);
    TrimmedAround(q, sep, x);
    AlreadyTrimmed(p);
    AlreadyTrimmed(x);
    AlreadyTrimmed(p + sep + q);
    AlreadyTrimmed(q + sep + x);
    assert |p + sep + q| > |p|;
    SameRequestTrims(a, b);
    BoundaryMovesInside(Values(a), Values(b), 6, p, q, x);
  }
}
