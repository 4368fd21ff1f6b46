/**
 * The masking helpers the management console uses before anything reaches a
 * log or an event record: each masker keeps a few characters of a name, phone
 * number, e-mail address, licence number or UUID and hides the rest, and
 * `maskPiiFields` applies the right masker to the string values of the known
 * personal fields of an object copy. A `string | null | undefined` argument is
 * an `Option<string>` (None for null and undefined). `charAt`, `slice` and
 * `length` count characters, here Unicode scalar values; they agree with
 * JavaScript's UTF-16 code units inside the Basic Multilingual Plane.
 */
module PiiMask {
  import opened Common
  import opened Records

  const Stars: string := "***"

  /** `maskName`: the first character and three stars; "***" for null, undefined or "". */
  function MaskName(name: Option<string>): (r: string)
    ensures !Truthy(name) ==> r == Stars
    ensures Truthy(name) ==> |r| == 4 && r[0] == name.value[0] && r[1..] == Stars
  {
    if !Truthy(name) then Stars else [name.value[0]] + Stars
  }

  /** `phone.replace(/\D/g, '')`: the ASCII digits, in order. */
  function Digits(s: string): (r: string)
    ensures forall c :: c in r <==> c in s && IsAsciiDigit(c)
    ensures |r| <= |s|
  {
    Filter(s, IsAsciiDigit)
  }

  /** `maskPhone`: the first three and the last four digits around "-****-"; "***" with fewer than four digits. */
  function MaskPhone(phone: Option<string>): (r: string)
    ensures !Truthy(phone) || |Digits(phone.value)| < 4 ==> r == Stars
    ensures Truthy(phone) && |Digits(phone.value)| >= 4 ==>
      var d := Digits(phone.value); |r| == 13 && r == d[..3] + "-****-" + d[|d| - 4..]
  {
    if !Truthy(phone) then Stars
    else
      var d := Digits(phone.value);
      if |d| < 4 then Stars else d[..3] + "-****-" + d[|d| - 4..]
  }

  /** The text before the first '@' (all of it when there is none): the first element of `split('@')`. */
  function BeforeAt(s: string): (r: string)
    ensures '@' !in r && |r| <= |s| && r == s[..|r|]
  {
    if s == [] || s[0] == '@' then [] else [s[0]] + BeforeAt(s[1..])
  }

  /** The text after the first '@', None when there is no '@'. */
  function AfterAt(s: string): (r: Option<string>)
    ensures r.None? <==> '@' !in s
    ensures r.Some? ==> s == BeforeAt(s) + "@" + r.value
  {
    if s == [] then None
    else if s[0] == '@' then Some(s[1..])
    else match AfterAt(s[1..])
      case None => None
      case Some(rest) => Some(rest)
  }

  /** `const [local, domain] = email.split('@')`: the first part, and the second when there is one. */
  function EmailParts(email: string): (string, Option<string>) {
    (BeforeAt(email), match AfterAt(email) case None => None case Some(rest) => Some(BeforeAt(rest)))
  }

  /** `maskEmail`: the first character of the local part, "***@", and the domain. */
  function MaskEmail(email: Option<string>): (r: string)
    ensures !Truthy(email) ==> r == Stars
    ensures Truthy(email) && ('@' !in email.value || email.value[0] == '@') ==> r == Stars
    ensures r != Stars ==> Truthy(email) && |r| > 5 && r[0] == email.value[0] && r[1..5] == "***@" && '@' !in r[5..]
  {
    if !Truthy(email) then Stars
    else
      var (local, domain) := EmailParts(email.value);
      if local == "" || domain.None? || domain.value == "" then Stars
      else [local[0]] + "***@" + domain.value
  }

  /** `maskLicenseNumber`: four stars and the last five characters; "***" when shorter than five. */
  function MaskLicenseNumber(num: Option<string>): (r: string)
    ensures !Truthy(num) || |num.value| < 5 ==> r == Stars
    ensures Truthy(num) && |num.value| >= 5 ==> |r| == 9 && r == "****" + num.value[|num.value| - 5..]
  {
    if !Truthy(num) || |num.value| < 5 then Stars else "****" + num.value[|num.value| - 5..]
  }

  /** `maskUuid`: the first four characters, "...", the last four; "***" when shorter than eight. */
  function MaskUuid(uuid: Option<string>): (r: string)
    ensures !Truthy(uuid) || |uuid.value| < 8 ==> r == Stars
    ensures Truthy(uuid) && |uuid.value| >= 8 ==>
      |r| == 11 && r == uuid.value[..4] + "..." + uuid.value[|uuid.value| - 4..]
  {
    if !Truthy(uuid) || |uuid.value| < 8 then Stars else uuid.value[..4] + "..." + uuid.value[|uuid.value| - 4..]
  }

  const NameFields: seq<string> := ["name", "nameKana", "driverName", "alcoholCheckerName", "safetyManagerName"]
  const PhoneFields: seq<string> := ["phone"]
  const EmailFields: seq<string> := ["email"]
  const LicenseFields: seq<string> := ["licenseNumber"]

  /** What `maskPiiFields` stores under `key` in place of `v`: the matching masker's result for a string. */
  function MaskedValue(key: string, v: Value): (r: Value)
    ensures !v.VStr? ==> r == v
    ensures key !in NameFields + PhoneFields + EmailFields + LicenseFields ==> r == v
    ensures v.VStr? && key in NameFields ==> r == VStr(MaskName(Some(v.s)))
    ensures v.VStr? && key in PhoneFields ==> r == VStr(MaskPhone(Some(v.s)))
    ensures v.VStr? && key in EmailFields ==> r == VStr(MaskEmail(Some(v.s)))
    ensures v.VStr? && key in LicenseFields ==> r == VStr(MaskLicenseNumber(Some(v.s)))
  {
    if !v.VStr? then v
    else if key in NameFields then VStr(MaskName(Some(v.s)))
    else if key in PhoneFields then VStr(MaskPhone(Some(v.s)))
    else if key in EmailFields then VStr(MaskEmail(Some(v.s)))
    else if key in LicenseFields then VStr(MaskLicenseNumber(Some(v.s)))
    else v
  }

  /** The object `maskPiiFields` returns: every entry kept in place, its value masked by its key. */
  function Masked(obj: Record): (r: Record)
    ensures |r| == |obj|
    ensures forall i :: 0 <= i < |obj| ==> r[i] == (obj[i].0, MaskedValue(obj[i].0, obj[i].1))
  {
    seq(|obj|, i requires 0 <= i < |obj| => (obj[i].0, MaskedValue(obj[i].0, obj[i].1)))
  }

  /** `maskPiiFields`: a copy of the object, then one pass over its keys that overwrites the personal fields. */
  method MaskPiiFields(obj: Record) returns (masked: Record)
    ensures masked == Masked(obj)
  {
    masked := obj;
    var i := 0;
    while i < |masked|
      invariant 0 <= i <= |obj| && |masked| == |obj|
      invariant forall j :: 0 <= j < i ==> masked[j] == Masked(obj)[j]
      invariant forall j :: i <= j < |obj| ==> masked[j] == obj[j]
    {
      var (key, value) := masked[i];
      if value.VStr? {
        masked := masked[i := (key, MaskedValue(key, value))];
      }
      i := i + 1;
    }
  }

  /** An entry `maskPiiFields` rewrites: a string under one of the listed keys. */
  predicate Personal(e: (string, Value)) {
    e.1.VStr? && e.0 in NameFields + PhoneFields + EmailFields + LicenseFields
  }

  /** Masking keeps the key set and order, and leaves other keys and non-string values alone. */
  lemma MaskedKeepsKeys(obj: Record)
    ensures Keys(Masked(obj)) == Keys(obj)
    ensures forall i :: 0 <= i < |obj| && !Personal(obj[i]) ==> Masked(obj)[i] == obj[i]
  {
    var r := Masked(obj);
    assert |Keys(r)| == |Keys(obj)|;
    forall i | 0 <= i < |obj| ensures Keys(r)[i] == Keys(obj)[i] {
      assert r[i].0 == obj[i].0;
    }
    forall i | 0 <= i < |obj| && !Personal(obj[i]) ensures r[i] == obj[i] {
      assert MaskedValue(obj[i].0, obj[i].1) == obj[i].1;
    }
  }

  lemma {:induction false} DigitsAppend(a: string, b: string)
    ensures Digits(a + b) == Digits(a) + Digits(b)
  {
    FilterAppend(a, b, IsAsciiDigit);
  }

  lemma DigitsOfDigits(d: string)
    requires forall c :: c in d ==> IsAsciiDigit(c)
    ensures Digits(d) == d
  {
    FilterAll(d, IsAsciiDigit);
  }

  /** The only digits a masked phone number shows are the first three and the last four of the original. */
  lemma PhoneReveals(phone: string)
    requires |Digits(phone)| >= 4
    ensures var d := Digits(phone); Digits(MaskPhone(Some(phone))) == d[..3] + d[|d| - 4..]
  {
    var d := Digits(phone);
    var head, tail := d[..3], d[|d| - 4..];
    assert MaskPhone(Some(phone)) == head + "-****-" + tail;
    AllDigits(d, head, tail);
    DigitsOfDigits(head);
    DigitsOfDigits(tail);
    NoDigitsInSeparator();
    DigitsAppend(head, "-****-");
    DigitsAppend(head + "-****-", tail);
  }

  lemma AllDigits(d: string, head: string, tail: string)
    requires |d| >= 4 && head == d[..3] && tail == d[|d| - 4..]
    requires forall c :: c in d ==> IsAsciiDigit(c)
    ensures forall c :: c in head ==> IsAsciiDigit(c)
    ensures forall c :: c in tail ==> IsAsciiDigit(c)
  {
    assert forall c :: c in head ==> c in d;
    assert forall c :: c in tail ==> c in d;
  }

  lemma NoDigitsInSeparator()
    ensures Digits("-****-") == []
  {
    FilterNone("-****-", IsAsciiDigit);
  }

  /** A masked name masks to itself, except the "***" of an absent name, which gains a fourth star. */
  lemma MaskNameIdempotent(name: Option<string>)
    ensures MaskName(Some(MaskName(name))) == MaskName(name) <==> Truthy(name)
  {
    var m := MaskName(name);
    assert m[0] == (if Truthy(name) then name.value[0] else '*');
  }

  lemma MaskPhoneIdempotent(phone: Option<string>)
    ensures MaskPhone(Some(MaskPhone(phone))) == MaskPhone(phone)
  {
    if Truthy(phone) && |Digits(phone.value)| >= 4 {
      var d := Digits(phone.value);
      PhoneReveals(phone.value);
      var m := MaskPhone(phone);
      var e := d[..3] + d[|d| - 4..];
      assert e[..3] == d[..3] && e[|e| - 4..] == d[|d| - 4..];
    } else {
      assert Digits(Stars) == [];
    }
  }

  /** Splitting at the first '@' of `a + "@" + b`, when `a` has none, gives `a` and `b`. */
  lemma {:induction false} SplitAtFirst(a: string, b: string)
    requires '@' !in a
    ensures BeforeAt(a + "@" + b) == a && AfterAt(a + "@" + b) == Some(b)
  {
    if a != [] {
      SplitAtFirst(a[1..], b);
      assert (a + "@" + b)[1..] == a[1..] + "@" + b;
    } else {
      assert a + "@" + b == ['@'] + b;
    }
  }

  lemma {:induction false} NoAtWhole(a: string)
    requires '@' !in a
    ensures BeforeAt(a) == a
  {
    if a != [] {
      NoAtWhole(a[1..]);
    }
  }

  /** The reference form of `maskEmail`: for `local@domain` with a non-empty local part and domain and no other '@'. */
  lemma MaskEmailOf(local: string, domain: string)
    requires local != "" && domain != "" && '@' !in local && '@' !in domain
    ensures MaskEmail(Some(local + "@" + domain)) == [local[0]] + "***@" + domain
  {
    SplitAtFirst(local, domain);
    NoAtWhole(domain);
    assert EmailParts(local + "@" + domain) == (local, Some(domain));
  }

  /** Whatever follows a second '@' is dropped: `split('@')` keeps only the first two parts. */
  lemma MaskEmailDropsRest(local: string, domain: string, rest: string)
    requires local != "" && domain != "" && '@' !in local && '@' !in domain
    ensures MaskEmail(Some(local + "@" + domain + "@" + rest)) == [local[0]] + "***@" + domain
  {
    var tail := domain + "@" + rest;
    assert local + "@" + domain + "@" + rest == local + "@" + tail;
    SplitAtFirst(local, tail);
    SplitAtFirst(domain, rest);
    assert EmailParts(local + "@" + tail) == (local, Some(domain));
  }

  lemma MaskEmailIdempotent(email: Option<string>)
    ensures MaskEmail(Some(MaskEmail(email))) == MaskEmail(email)
  {
    var m := MaskEmail(email);
    if m != Stars {
      var (local, domain) := EmailParts(email.value);
      assert local != "" && domain.Some?;
      var rest := AfterAt(email.value).value;
      assert domain.value == BeforeAt(rest);
      assert '@' !in [local[0]] + "***" by {
        assert local[0] in local;
      }
      assert '@' !in domain.value;
      MaskEmailOf([local[0]] + "***", domain.value);
      assert m == [local[0]] + "***" + "@" + domain.value;
    } else {
      assert EmailParts(Stars).1 == None;
    }
  }

  lemma MaskLicenseNumberIdempotent(num: Option<string>)
    ensures MaskLicenseNumber(Some(MaskLicenseNumber(num))) == MaskLicenseNumber(num)
  {
  }

  lemma MaskUuidIdempotent(uuid: Option<string>)
    ensures MaskUuid(Some(MaskUuid(uuid))) == MaskUuid(uuid)
  {
    if Truthy(uuid) && |uuid.value| >= 8 {
      var m := MaskUuid(uuid);
      assert m[..4] == uuid.value[..4] && m[|m| - 4..] == uuid.value[|uuid.value| - 4..];
    }
  }

  /** Masking an already masked object changes nothing, as long as no name field held the empty string. */
  lemma MaskedIdempotent(obj: Record)
    requires forall i :: 0 <= i < |obj| && obj[i].0 in NameFields ==> obj[i].1 != VStr("")
    ensures Masked(Masked(obj)) == Masked(obj)
  {
    var m := Masked(obj);
    forall i | 0 <= i < |obj| ensures Masked(m)[i] == m[i] {
      var (k, v) := obj[i];
      if v.VStr? {
        MaskNameIdempotent(Some(v.s));
        MaskPhoneIdempotent(Some(v.s));
        MaskEmailIdempotent(Some(v.s));
        MaskLicenseNumberIdempotent(Some(v.s));
      }
    }
  }
}
