/** The request fingerprint (internal/model/fingerprint.go). The hash is taken as injective, so a
    fingerprint is represented by the canonical text that is hashed. */
module Fingerprint {
  import opened Bookings
  import opened Dates

  datatype CreateRequest = CreateRequest(
    distributor: string, key: string,
    property: string, room: string,
    checkIn: Date, checkOut: Date,
    firstName: string, lastName: string)

  predicate IsSpace(c: char) {
    || c in {'\t', '\n', '\U{000B}', '\U{000C}', '\r', ' ', '\U{0085}', '\U{00A0}', '\U{1680}'}
    || '\U{2000}' <= c <= '\U{200A}'
    || c in {'\U{2028}', '\U{2029}', '\U{202F}', '\U{205F}', '\U{3000}'}
  }

  function TrimSpace(s: string): string {
    if s != "" && IsSpace(s[0]) then TrimSpace(s[1..])
    else if s != "" && IsSpace(s[|s| - 1]) then TrimSpace(s[..|s| - 1])
    else s
  }

  // ----- what trimming means -----

  /** The twenty-five code points Unicode calls white space. */
  const BLANKS: string :=
    "\t\n\U{000B}\U{000C}\r \U{0085}\U{00A0}\U{1680}"
    + "\U{2000}\U{2001}\U{2002}\U{2003}\U{2004}\U{2005}\U{2006}\U{2007}\U{2008}\U{2009}\U{200A}"
    + "\U{2028}\U{2029}\U{202F}\U{205F}\U{3000}"

  predicate Blank(s: string) {
    forall c | c in s :: c in BLANKS
  }

  /** Empty, or with something other than a blank at either end. */
  predicate Tight(s: string) {
    s == "" || (s[0] !in BLANKS && s[|s| - 1] !in BLANKS)
  }

  /** What is left of a field once its blank ends are gone. */
  ghost predicate IsCore(s: string, core: string) {
    Tight(core) && exists a, b :: Blank(a) && Blank(b) && s == a + core + b
  }

  lemma SpacesAreBlanks(c: char)
    ensures IsSpace(c) <==> c in BLANKS
  {
    if IsSpace(c) {
      var k := if c <= '\r' then c as nat - 9
               else if c == ' ' then 5 else if c == '\U{0085}' then 6 else if c == '\U{00A0}' then 7
               else if c == '\U{1680}' then 8 else if c <= '\U{200A}' then 9 + (c as nat - 0x2000)
               else if c == '\U{2028}' then 20 else if c == '\U{2029}' then 21 else if c == '\U{202F}' then 22
               else if c == '\U{205F}' then 23 else 24;
      assert BLANKS[k] == c;
    }
  }

  /** Blank ends are all that trimming takes, and it takes all of them. */
  lemma {:induction false} TrimTakesEnds(a: string, core: string, b: string)
    requires Blank(a) && Tight(core) && Blank(b)
    ensures TrimSpace(a + core + b) == core
    decreases |a| + |b|
  {
    hide IsSpace;
    var s := a + core + b;
    if s != "" {
      SpacesAreBlanks(s[0]);
      SpacesAreBlanks(s[|s| - 1]);
    }
    if a != "" {
      assert s[0] == a[0] && s[1..] == a[1..] + core + b;
      TrimTakesEnds(a[1..], core, b);
    } else if b != "" && core == "" {
      assert s == b && s[1..] == a + core + b[1..];
      TrimTakesEnds(a, core, b[1..]);
    } else if b != "" {
      assert s[0] == core[0] && s[|s| - 1] == b[|b| - 1] && s[..|s| - 1] == a + core + b[..|b| - 1];
      TrimTakesEnds(a, core, b[..|b| - 1]);
    } else {
      assert s == core;
    }
  }

  lemma TightIsCore(s: string)
    requires Tight(s)
    ensures IsCore(s, s)
  {
    assert Blank("") && s == "" + s + "";
  }

  lemma BlanksAround(a: string, s: string, b: string, core: string)
    requires Blank(a) && Blank(b) && IsCore(s, core)
    ensures IsCore(a + s + b, core)
  {
    hide Tight;
    var c, d :| Blank(c) && Blank(d) && s == c + core + d;
    assert Blank(a + c) && Blank(d + b);
    assert a + s + b == (a + c) + core + (d + b);
  }

  lemma {:induction false} TrimLeavesCore(s: string)
    ensures IsCore(s, TrimSpace(s))
  {
    hide IsSpace, IsCore;
    if s == "" {
      TightIsCore(s);
    } else {
      SpacesAreBlanks(s[0]);
      SpacesAreBlanks(s[|s| - 1]);
      var (tail, init) := (s[1..], s[..|s| - 1]);
      if IsSpace(s[0]) {
        TrimLeavesCore(tail);
        BlanksAround([s[0]], tail, "", TrimSpace(s));
        assert s == [s[0]] + tail + "";
      } else if IsSpace(s[|s| - 1]) {
        TrimLeavesCore(init);
        BlanksAround("", init, [s[|s| - 1]], TrimSpace(s));
        assert s == "" + init + [s[|s| - 1]];
      } else {
        TightIsCore(s);
      }
    }
  }

  /** The field as hashed is its core, and there is only one. */
  lemma TrimIsCore(s: string, core: string)
    ensures IsCore(s, core) <==> TrimSpace(s) == core
  {
    TrimLeavesCore(s);
    if IsCore(s, core) {
      var a, b :| Blank(a) && Blank(b) && s == a + core + b;
      TrimTakesEnds(a, core, b);
    }
  }

  /** Two spellings of one field: the same core, whatever blanks there are around it. */
  ghost predicate SameField(s: string, t: string) {
    exists core :: IsCore(s, core) && IsCore(t, core)
  }

  lemma SameFieldTrims(s: string, t: string)
    ensures SameField(s, t) <==> TrimSpace(s) == TrimSpace(t)
  {
    hide IsCore, TrimSpace;
    TrimIsCore(s, TrimSpace(s));
    TrimIsCore(t, TrimSpace(s));
    if core :| IsCore(s, core) && IsCore(t, core) {
      TrimIsCore(s, core);
      TrimIsCore(t, core);
    }
  }

  /** Field names in byte order, which is the order they are hashed in. */
  const NAMES: seq<string> :=
    ["checkIn", "checkOut", "distributorId", "guestFirstName", "guestLastName", "propertyId", "roomTypeId"]

  /** The hashed fields, by name. The idempotency key is not among them. */
  function Fields(r: CreateRequest): map<string, string> {
    map["checkIn" := FormatDate(r.checkIn),
        "checkOut" := FormatDate(r.checkOut),
        "distributorId" := TrimSpace(r.distributor),
        "guestFirstName" := TrimSpace(r.firstName),
        "guestLastName" := TrimSpace(r.lastName),
        "propertyId" := TrimSpace(r.property),
        "roomTypeId" := TrimSpace(r.room)]
  }

  /** Byte order, as a sort of Go strings has it. */
  predicate FirstDifferAt(a: string, b: string, k: nat) {
    k < |a| && k < |b| && a[..k] == b[..k] && a[k] < b[k]
  }

  ghost predicate Before(a: string, b: string) {
    exists k: nat :: FirstDifferAt(a, b, k)
  }

  /** The names are exactly the map's keys, sorted. */
  lemma NamesAreSortedKeys(r: CreateRequest)
    ensures forall i | 0 <= i < 6 :: Before(NAMES[i], NAMES[i + 1])
    ensures (set i | 0 <= i < |NAMES| :: NAMES[i]) == Fields(r).Keys
  {
    assert FirstDifferAt(NAMES[0], NAMES[1], 5);
    assert FirstDifferAt(NAMES[1], NAMES[2], 0);
    assert FirstDifferAt(NAMES[2], NAMES[3], 0);
    assert FirstDifferAt(NAMES[3], NAMES[4], 5);
    assert FirstDifferAt(NAMES[4], NAMES[5], 0);
    assert FirstDifferAt(NAMES[5], NAMES[6], 0);
    forall name | name in Fields(r).Keys
      ensures exists i :: 0 <= i < |NAMES| && NAMES[i] == name
    {
      assert name in {NAMES[0], NAMES[1], NAMES[2], NAMES[3], NAMES[4], NAMES[5], NAMES[6]};
    }
  }

  function Values(r: CreateRequest): (v: seq<string>)
    ensures |v| == |NAMES| == 7
    ensures forall i | 0 <= i < 7 :: NAMES[i] in Fields(r) && v[i] == Fields(r)[NAMES[i]]
  {
    [FormatDate(r.checkIn), FormatDate(r.checkOut), TrimSpace(r.distributor), TrimSpace(r.firstName),
     TrimSpace(r.lastName), TrimSpace(r.property), TrimSpace(r.room)]
  }

  function Name(i: nat): string
    requires i < 7
  {
    NAMES[i]
  }

  function Line(name: string, value: string): string {
    name + "=" + value + "\n"
  }

  /** The lines from the i-th on. */
  function Lines(values: seq<string>, i: nat): string
    requires |values| == 7 && i <= 7
    decreases 7 - i
  {
    if i == 7 then "" else Line(Name(i), values[i]) + Lines(values, i + 1)
  }

  function Canonical(r: CreateRequest): string {
    Lines(Values(r), 0)
  }

  lemma AppendLine(before: string, name: string, value: string, more: string)
    ensures before + (Line(name, value) + more) == before + name + "=" + value + "\n" + more
  {
  }

  /** The loop over the sorted names, writing each field to the builder. */
  method Compute(r: CreateRequest) returns (canonical: string)
    ensures canonical == Canonical(r)
  {
    var fields := Fields(r);
    canonical := "";
    for i := 0 to |NAMES|
      invariant canonical + Lines(Values(r), i) == Canonical(r)
    {
      ghost var before := canonical;
      var name := NAMES[i];
      canonical := canonical + name;
      canonical := canonical + "=";
      canonical := canonical + fields[name];
      canonical := canonical + "\n";
      AppendLine(before, name, fields[name], Lines(Values(r), i + 1));
    }
    assert canonical + "" == canonical;
  }

  // ----- reading the canonical text back -----

  predicate NewlineFree(values: seq<string>) {
    forall i | 0 <= i < |values| :: '\n' !in values[i]
  }

  function UpToNewline(s: string): string {
    if s == "" || s[0] == '\n' then "" else [s[0]] + UpToNewline(s[1..])
  }

  function Parse(text: string, i: nat): Option<seq<string>>
    requires i <= 7
    decreases 7 - i
  {
    if i == 7 then if text == "" then Some([]) else None
    else
      var prefix := Name(i) + "=";
      if !(prefix <= text) then None else
        var rest := text[|prefix|..];
        var value := UpToNewline(rest);
        if |value| >= |rest| then None else
          match Parse(rest[|value| + 1..], i + 1)
          case None => None
          case Some(more) => Some([value] + more)
  }

  lemma {:induction false} UpToNewlineStops(value: string, more: string)
    requires '\n' !in value
    ensures UpToNewline(value + "\n" + more) == value
  {
    var s := value + "\n" + more;
    if value == "" {
      assert s[0] == '\n';
    } else {
      assert s[0] == value[0] && s[1..] == value[1..] + "\n" + more;
      UpToNewlineStops(value[1..], more);
    }
  }

  /** How a line comes apart again. */
  lemma LineSplits(name: string, value: string, more: string)
    requires '\n' !in value
    ensures var (text, prefix) := (Line(name, value) + more, name + "=");
            && prefix <= text
            && UpToNewline(text[|prefix|..]) == value
            && |value| < |text| - |prefix|
            && text[|prefix|..][|value| + 1..] == more
  {
    var text, prefix := Line(name, value) + more, name + "=";
    assert text == prefix + (value + "\n" + more);
    assert text[|prefix|..] == value + "\n" + more;
    UpToNewlineStops(value, more);
  }

  lemma ParseLine(i: nat, value: string, more: string)
    requires i < 7 && '\n' !in value
    ensures Parse(Line(Name(i), value) + more, i) ==
              match Parse(more, i + 1) case None => None case Some(values) => Some([value] + values)
  {
    hide Name, Line;
    LineSplits(Name(i), value, more);
  }

  lemma {:induction false} ParseInvertsLines(values: seq<string>, i: nat)
    requires |values| == 7 && i <= 7 && NewlineFree(values)
    ensures Parse(Lines(values, i), i) == Some(values[i..])
    decreases 7 - i
  {
    hide Name, Line;
    if i == 7 {
      assert Lines(values, 7) == "" && values[7..] == [];
      assert Parse("", 7) == Some([]);
    } else {
      ParseLine(i, values[i], Lines(values, i + 1));
      ParseInvertsLines(values, i + 1);
      assert [values[i]] + values[i + 1..] == values[i..];
    }
  }

  /** The same booking request, blanks at the ends of its fields aside. The key is not part of it. */
  ghost predicate SameRequest(a: CreateRequest, b: CreateRequest) {
    && a.checkIn == b.checkIn && a.checkOut == b.checkOut
    && SameField(a.distributor, b.distributor)
    && SameField(a.firstName, b.firstName) && SameField(a.lastName, b.lastName)
    && SameField(a.property, b.property) && SameField(a.room, b.room)
  }

  lemma SameRequestTrims(a: CreateRequest, b: CreateRequest)
    ensures SameRequest(a, b) <==>
              && a.checkIn == b.checkIn && a.checkOut == b.checkOut
              && TrimSpace(a.distributor) == TrimSpace(b.distributor)
              && TrimSpace(a.firstName) == TrimSpace(b.firstName) && TrimSpace(a.lastName) == TrimSpace(b.lastName)
              && TrimSpace(a.property) == TrimSpace(b.property) && TrimSpace(a.room) == TrimSpace(b.room)
  {
    hide SameField, TrimSpace;
    SameFieldTrims(a.distributor, b.distributor);
    SameFieldTrims(a.firstName, b.firstName);
    SameFieldTrims(a.lastName, b.lastName);
    SameFieldTrims(a.property, b.property);
    SameFieldTrims(a.room, b.room);
  }

  lemma SameRequestSameText(a: CreateRequest, b: CreateRequest)
    ensures SameRequest(a, b) ==> Canonical(a) == Canonical(b)
  {
    hide SameRequest, TrimSpace;
    SameRequestTrims(a, b);
  }

  lemma NextLine(v: seq<string>, i: nat, start: string)
    requires |v| == 7 && i < 7 && start == Name(i) + "="
    ensures Lines(v, i) == (start + v[i] + "\n") + Lines(v, i + 1)
  {
  }

  lemma NoMoreLines(v: seq<string>)
    requires |v| == 7
    ensures Lines(v, 7) == "" && Lines(v, 6) + Lines(v, 7) == Lines(v, 6)
  {
  }

  /** The hashed text, written out. */
  lemma TextIs(r: CreateRequest)
    ensures Canonical(r) ==
              ("checkIn=" + FormatDate(r.checkIn) + "\n") + (("checkOut=" + FormatDate(r.checkOut) + "\n")
              + (("distributorId=" + TrimSpace(r.distributor) + "\n")
              + (("guestFirstName=" + TrimSpace(r.firstName) + "\n")
              + (("guestLastName=" + TrimSpace(r.lastName) + "\n")
              + (("propertyId=" + TrimSpace(r.property) + "\n") + ("roomTypeId=" + TrimSpace(r.room) + "\n"))))))
  {
    hide TrimSpace, FormatDate, Lines;
    var v := Values(r);
    NextLine(v, 0, "checkIn=");
    NextLine(v, 1, "checkOut=");
    NextLine(v, 2, "distributorId=");
    NextLine(v, 3, "guestFirstName=");
    NextLine(v, 4, "guestLastName=");
    NextLine(v, 5, "propertyId=");
    NextLine(v, 6, "roomTypeId=");
    NoMoreLines(v);
  }

  lemma {:induction false} SameHead(v: seq<string>, w: seq<string>, k: nat, i: nat)
    requires |v| == |w| == 7 && i <= k <= 7 && v[..k] == w[..k] && Lines(v, k) == Lines(w, k)
    ensures Lines(v, i) == Lines(w, i)
    decreases k - i
  {
    if i < k {
      SameHead(v, w, k, i + 1);
      assert v[i] == v[..k][i] == w[..k][i] == w[i];
    }
  }

  predicate Trimmed(s: string) {
    s != "" && !IsSpace(s[0]) && !IsSpace(s[|s| - 1])
  }

  lemma AlreadyTrimmed(s: string)
    requires Trimmed(s)
    ensures TrimSpace(s) == s
  {
  }

  lemma TrimmedAround(p: string, mid: string, q: string)
    requires Trimmed(p) && Trimmed(q)
    ensures Trimmed(p + mid + q)
  {
  }
}
