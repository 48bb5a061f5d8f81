/** The reference a booking carries to the supplier (internal/supplier/supplier.go). */
module SupplierKey {

  const DASHES: set<nat> := {8, 13, 18, 23}

  predicate LowerHex(c: char) {
    '0' <= c <= '9' || 'a' <= c <= 'f'
  }

  /** The canonical text of a UUID, section 4 of RFC 9562: what uuid.UUID.String prints. */
  predicate Canonical(id: string) {
    && |id| == 36
    && forall i | 0 <= i < 36 :: if i in DASHES then id[i] == '-' else LowerHex(id[i])
  }

  function RemoveDashes(s: string): string {
    if s == "" then ""
    else (if s[0] == '-' then "" else [s[0]]) + RemoveDashes(s[1..])
  }

  function Upper(c: char): char {
    if 'a' <= c <= 'z' then (c as int - 32) as char else c
  }

  function Lower(c: char): char {
    if 'A' <= c <= 'Z' then (c as int + 32) as char else c
  }

  function ToUpper(s: string): (u: string)
    ensures |u| == |s| && forall i | 0 <= i < |s| :: u[i] == Upper(s[i])
  {
    seq(|s|, i requires 0 <= i < |s| => Upper(s[i]))
  }

  function ToLower(s: string): (u: string)
    ensures |u| == |s| && forall i | 0 <= i < |s| :: u[i] == Lower(s[i])
  {
    seq(|s|, i requires 0 <= i < |s| => Lower(s[i]))
  }

  function IdempotencyKey(id: string): string {
    ToUpper(RemoveDashes(id))
  }

  /** The inverse: put the dashes back where section 4 of RFC 9562 has them. */
  function BookingOf(key: string): string
    requires |key| == 32
  {
    var t := ToLower(key);
    t[..8] + "-" + t[8..12] + "-" + t[12..16] + "-" + t[16..20] + "-" + t[20..]
  }

  lemma {:induction false} RemoveDashesSplit(head: string, tail: string)
    requires '-' !in head
    ensures RemoveDashes(head + tail) == head + RemoveDashes(tail)
  {
    if head == "" {
      assert head + tail == tail;
    } else {
      RemoveDashesSplit(head[1..], tail);
      assert (head + tail)[1..] == head[1..] + tail;
    }
  }

  lemma RemoveOneDash(head: string, tail: string)
    requires '-' !in head
    ensures RemoveDashes(head + "-" + tail) == head + RemoveDashes(tail)
  {
    RemoveDashesSplit(head, "-" + tail);
    assert head + "-" + tail == head + ("-" + tail);
    assert ("-" + tail)[1..] == tail;
  }

  lemma TextLength(id: string)
    requires Canonical(id)
    ensures |id| == 36
  {
  }

  /** The five groups of a canonical text hold no dash, and a dash stands between them. */
  lemma Groups(id: string)
    requires Canonical(id)
    ensures '-' !in id[..8] && '-' !in id[9..13] && '-' !in id[14..18] && '-' !in id[19..23] && '-' !in id[24..]
    ensures id == id[..8] + "-" + id[9..] && id[9..] == id[9..13] + "-" + id[14..]
    ensures id[14..] == id[14..18] + "-" + id[19..] && id[19..] == id[19..23] + "-" + id[24..]
  {
  }

  lemma PlainStays(s: string)
    requires '-' !in s
    ensures RemoveDashes(s) == s
  {
    RemoveDashesSplit(s, "");
    assert s + "" == s;
  }

  lemma KeyText(id: string)
    requires Canonical(id)
    ensures RemoveDashes(id) == id[..8] + id[9..13] + id[14..18] + id[19..23] + id[24..]
  {
    hide Canonical, RemoveDashes;
    TextLength(id);
    Groups(id);
    PlainStays(id[24..]);
    RemoveOneDash(id[19..23], id[24..]);
    RemoveOneDash(id[14..18], id[19..]);
    RemoveOneDash(id[9..13], id[14..]);
    RemoveOneDash(id[..8], id[9..]);
  }

  /** Where a character of the key stands in the id: past the dashes before it. */
  function Place(k: nat): nat {
    if k < 8 then k else if k < 12 then k + 1 else if k < 16 then k + 2 else if k < 20 then k + 3 else k + 4
  }

  /** The key is the id's hexadecimal digits, in order and in capitals. */
  lemma KeyIs(id: string, k: nat)
    requires Canonical(id) && k < 32
    ensures |IdempotencyKey(id)| == 32
    ensures var (was, c) := (id[Place(k)], IdempotencyKey(id)[k]);
            if '0' <= was <= '9' then c == was
            else 'a' <= was <= 'f' && c == "ABCDEF"[was as nat - 'a' as nat]
  {
    KeyText(id);
    assert RemoveDashes(id)[k] == id[Place(k)];
  }

  /** The encoding is lossless: the booking's id comes back out of its supplier key. */
  lemma KeyRoundTrip(id: string)
    requires Canonical(id)
    ensures |IdempotencyKey(id)| == 32
    ensures BookingOf(IdempotencyKey(id)) == id
  {
    KeyText(id);
    var key := IdempotencyKey(id);
    assert |key| == 32;
    var t := ToLower(key);
    assert t[..8] == id[..8];
    assert t[8..12] == id[9..13];
    assert t[12..16] == id[14..18];
    assert t[16..20] == id[19..23];
    assert t[20..] == id[24..];
    assert id == id[..8] + "-" + id[9..13] + "-" + id[14..18] + "-" + id[19..23] + "-" + id[24..];
  }

  lemma KeysDiffer(a: string, b: string)
    requires Canonical(a) && Canonical(b) && a != b
    ensures IdempotencyKey(a) != IdempotencyKey(b)
  {
    KeyRoundTrip(a);
    KeyRoundTrip(b);
  }
}
