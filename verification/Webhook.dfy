/** The signature header of a webhook and its verification (go/rz/webhook.go:14-91).
    The HMAC is an arbitrary function of secret, time and body. */
module Webhook {
  import opened Types

  const MAX_WEBHOOK_SKEW_SECONDS := 300
  const TWO_63: int := 0x8000_0000_0000_0000
  const TWO_64: int := 0x1_0000_0000_0000_0000

  /** Go's signed 64-bit wrap-around. */
  function Wrap64(x: int): (y: int)
    ensures -TWO_63 <= y < TWO_63
    ensures -TWO_63 <= x < TWO_63 ==> y == x
  {
    (x + TWO_63) % TWO_64 - TWO_63
  }

  // ---------- splitting ----------

  /** The first position of a character, or the length when it is absent. */
  function Find(s: string, c: char): (i: nat)
    ensures i <= |s| && (i < |s| ==> s[i] == c)
    ensures forall j :: 0 <= j < i ==> s[j] != c
  {
    if s == "" || s[0] == c then 0 else Find(s[1..], c) + 1
  }

  /** The parts between the separators. */
  function Split(s: string, c: char): seq<string>
    decreases |s|
  {
    var i := Find(s, c);
    if i == |s| then [s] else [s[..i]] + Split(s[i + 1..], c)
  }

  // ---------- the header's fields ----------

  /** A part adds its field when it has a non-empty key before its first '='. */
  function AddField(fields: map<string, string>, part: string): map<string, string> {
    var i := Find(part, '=');
    if 0 < i < |part| then fields[part[..i] := part[i + 1..]] else fields
  }

  function Fields(parts: seq<string>): map<string, string> {
    if parts == [] then map[] else AddField(Fields(parts[..|parts| - 1]), parts[|parts| - 1])
  }

  function Lookup(fields: map<string, string>, key: string): string {
    if key in fields then fields[key] else ""
  }

  predicate IsDigit(c: char) { '0' <= c <= '9' }

  predicate AllDigits(s: string) { forall i :: 0 <= i < |s| ==> IsDigit(s[i]) }

  /** The number the digits denote, in 64-bit arithmetic. */
  function Number(s: string): int
    requires AllDigits(s)
  {
    if s == "" then 0 else Wrap64(Number(s[..|s| - 1]) * 10 + (s[|s| - 1] as int - '0' as int))
  }

  datatype Signature = Signature(t: int, s: string)

  function Parse(header: string): Option<Signature> {
    var fields := Fields(Split(header, '|'));
    var t, s := Lookup(fields, "t"), Lookup(fields, "s");
    if t != "" && s != "" && AllDigits(t) then Some(Signature(Number(t), s)) else None
  }

  lemma EmptyHeaderHasNoFields()
    ensures Parse("").None?
  {
    assert Split("", '|') == [""];
    assert Fields([""]) == AddField(Fields([""][..0]), "");
  }

  method ReadFields(header: string) returns (m: map<string, string>)
    ensures m == Fields(Split(header, '|'))
  {
    hide Find, Split;
    var pairs := Split(header, '|');
    m := map[];
    for k := 0 to |pairs|
      invariant m == Fields(pairs[..k])
    {
      assert pairs[..k + 1][..k] == pairs[..k];
      var i := Find(pairs[k], '=');
      if 0 < i < |pairs[k]| {
        m := m[pairs[k][..i] := pairs[k][i + 1..]];
      }
    }
    assert pairs[..|pairs|] == pairs;
  }

  method ReadNumber(digits: string) returns (v: int, ok: bool)
    ensures ok == AllDigits(digits)
    ensures ok ==> v == Number(digits)
  {
    hide Wrap64;
    v, ok := 0, true;
    for k := 0 to |digits|
      invariant AllDigits(digits[..k]) && v == Number(digits[..k])
    {
      if !IsDigit(digits[k]) {
        return 0, false;
      }
      assert digits[..k + 1][..k] == digits[..k];
      v := Wrap64(v * 10 + (digits[k] as int - '0' as int));
    }
    assert digits[..|digits|] == digits;
  }

  method ParseSignatureHeader(header: string) returns (t: int, s: string, ok: bool)
    ensures ok == Parse(header).Some?
    ensures ok ==> Parse(header) == Some(Signature(t, s))
  {
    hide Fields, Split, AllDigits, Number;
    t, s, ok := 0, "", false;
    if header == "" {
      EmptyHeaderHasNoFields();
      return;
    }
    var m := ReadFields(header);
    if Lookup(m, "t") == "" || Lookup(m, "s") == "" {
      return;
    }
    t, ok := ReadNumber(Lookup(m, "t"));
    s := Lookup(m, "s");
  }

  // ---------- the printer it inverts ----------

  function Digit(d: nat): (c: char)
    requires d < 10
    ensures IsDigit(c) && c as int - '0' as int == d
  {
    ('0' as int + d) as char
  }

  function Decimal(n: nat): (s: string)
    ensures s != "" && AllDigits(s)
  {
    if n < 10 then [Digit(n)] else Decimal(n / 10) + [Digit(n % 10)]
  }

  /** The header a sender prints for a time and a signature. */
  function Print(t: nat, sig: string): string {
    "t=" + Decimal(t) + "|s=" + sig
  }

  lemma {:induction false} NumberInvertsDecimal(n: nat)
    requires n < TWO_63
    ensures Number(Decimal(n)) == n
  {
    var s := Decimal(n);
    if n < 10 {
      assert s[..0] == "";
    } else {
      NumberInvertsDecimal(n / 10);
      assert s[..|s| - 1] == Decimal(n / 10);
    }
  }

  lemma FindAt(a: string, b: string, c: char)
    requires c !in a
    ensures Find(a + [c] + b, c) == |a|
    ensures Find(a, c) == |a|
  {
    var s := a + [c] + b;
    assert s[|a|] == c && forall j :: 0 <= j < |a| ==> s[j] == a[j];
  }

  lemma SplitPrinted(t: nat, sig: string)
    requires '|' !in sig
    ensures Split(Print(t, sig), '|') == ["t=" + Decimal(t), "s=" + sig]
  {
    var a, b := "t=" + Decimal(t), "s=" + sig;
    assert Print(t, sig) == a + ['|'] + b;
    assert forall i :: 0 <= i < |Decimal(t)| ==> Decimal(t)[i] != '|';
    FindAt(a, b, '|');
    FindAt(b, "", '|');
    assert (a + ['|'] + b)[..|a|] == a && (a + ['|'] + b)[|a| + 1..] == b;
  }

  lemma PrintedFields(t: nat, sig: string)
    ensures var fields := Fields(["t=" + Decimal(t), "s=" + sig]);
            Lookup(fields, "t") == Decimal(t) && Lookup(fields, "s") == sig
  {
    var a, b := "t=" + Decimal(t), "s=" + sig;
    FindAt("t", Decimal(t), '=');
    FindAt("s", sig, '=');
    assert a == "t" + ['='] + Decimal(t) && b == "s" + ['='] + sig;
    assert a[..1] == "t" && a[2..] == Decimal(t) && b[..1] == "s" && b[2..] == sig;
    var none: seq<string> := [];
    assert [a, b][..1] == [a] && [a][..0] == none;
    assert Fields([a]) == map["t" := Decimal(t)];
    assert "t" != "s";
  }

  /** Parsing inverts printing, for every 64-bit time and every signature that is
      not empty and has no separator in it. */
  lemma ParseInvertsPrint(t: nat, sig: string)
    requires t < TWO_63 && sig != "" && '|' !in sig
    ensures Parse(Print(t, sig)) == Some(Signature(t, sig))
  {
    SplitPrinted(t, sig);
    PrintedFields(t, sig);
    NumberInvertsDecimal(t);
  }

  // ---------- what any header yields ----------

  function Join(parts: seq<string>, c: char): string {
    if parts == [] then "" else if |parts| == 1 then parts[0] else parts[0] + [c] + Join(parts[1..], c)
  }

  /** Splitting cuts at every separator and loses nothing. */
  lemma {:induction false} SplitCuts(s: string, c: char)
    ensures Split(s, c) != [] && Join(Split(s, c), c) == s && forall part :: part in Split(s, c) ==> c !in part
    decreases |s|
  {
    var i := Find(s, c);
    if i < |s| {
      SplitCuts(s[i + 1..], c);
      assert s == s[..i] + [c] + s[i + 1..];
      assert Split(s, c)[1..] == Split(s[i + 1..], c);
    }
    hide Find;
  }

  /** A part that gives the key a value. */
  predicate Gives(part: string, key: string) { key + "=" <= part }

  /** The last part that gives the key gives it this value. */
  predicate LastGives(parts: seq<string>, key: string, value: string) {
    exists i: nat :: i < |parts| && LastGivesAt(parts, key, value, i)
  }

  predicate LastGivesAt(parts: seq<string>, key: string, value: string, i: nat)
    requires i < |parts|
  {
    parts[i] == key + "=" + value && NoneGives(parts[i + 1..], key)
  }

  predicate NoneGives(parts: seq<string>, key: string) { forall j :: 0 <= j < |parts| ==> !Gives(parts[j], key) }

  lemma PartGives(fields: map<string, string>, part: string, key: string)
    requires key != "" && '=' !in key
    ensures Gives(part, key) ==> AddField(fields, part) == fields[key := part[|key| + 1..]]
    ensures !Gives(part, key) ==> Lookup(AddField(fields, part), key) == Lookup(fields, key)
  {
    if Gives(part, key) {
      assert part == key + ['='] + part[|key| + 1..];
      FindAt(key, part[|key| + 1..], '=');
      assert part[..|key|] == key;
    } else {
      var i := Find(part, '=');
      if 0 < i < |part| {
        assert part[..i + 1] == part[..i] + "=";
      }
    }
  }

  /** A field that is not empty is read exactly when the last part giving its key
      gives that value. */
  lemma {:induction false} FieldIsTheLastGiven(parts: seq<string>, key: string, value: string)
    requires key != "" && '=' !in key && value != ""
    ensures Lookup(Fields(parts), key) == value <==> LastGives(parts, key, value)
    decreases |parts|
  {
    hide AddField, Gives;
    if parts != [] {
      var n := |parts| - 1;
      FieldIsTheLastGiven(parts[..n], key, value);
      PartGives(Fields(parts[..n]), parts[n], key);
      LastGivenUnfolds(parts[..n], parts[n], key, value);
      assert parts[..n] + [parts[n]] == parts;
    }
  }

  lemma LastGivenUnfolds(parts: seq<string>, part: string, key: string, value: string)
    ensures LastGives(parts + [part], key, value) <==>
              if Gives(part, key) then part[|key| + 1..] == value else LastGives(parts, key, value)
  {
    var all, n := parts + [part], |parts|;
    forall i: nat | i < n
      ensures LastGivesAt(all, key, value, i) <==> !Gives(part, key) && LastGivesAt(parts, key, value, i)
    {
      assert all[i + 1..] == parts[i + 1..] + [part];
      NoneGivesNext(parts[i + 1..], part, key);
    }
    assert LastGivesAt(all, key, value, n) <==> part == key + "=" + value by { assert all[n + 1..] == []; }
    hide LastGivesAt;
    assert Gives(part, key) ==> part == key + "=" + part[|key| + 1..];
  }

  lemma NoneGivesNext(parts: seq<string>, part: string, key: string)
    ensures NoneGives(parts + [part], key) <==> NoneGives(parts, key) && !Gives(part, key)
  {
    var all := parts + [part];
    assert all[|parts|] == part && forall j :: 0 <= j < |parts| ==> all[j] == parts[j];
  }

  /** The number the digits denote. */
  function Value(digits: string): nat
    requires AllDigits(digits)
  {
    if digits == "" then 0
    else Value(digits[..|digits| - 1]) * 10 + (digits[|digits| - 1] as int - '0' as int)
  }

  lemma {:induction false} ValueInvertsDecimal(n: nat)
    ensures Value(Decimal(n)) == n
  {
    var s := Decimal(n);
    if n < 10 {
      assert s[..0] == "";
    } else {
      ValueInvertsDecimal(n / 10);
      assert s[..|s| - 1] == Decimal(n / 10);
    }
  }

  lemma WrapAround(x: int, k: int)
    ensures Wrap64(x + k * TWO_64) == Wrap64(x)
  {
    var y := x + TWO_63;
    assert y == TWO_64 * (y / TWO_64) + y % TWO_64;
    assert y + k * TWO_64 == TWO_64 * (y / TWO_64 + k) + y % TWO_64;
    Remainder(y + k * TWO_64, y / TWO_64 + k, y % TWO_64);
  }

  lemma Remainder(y: int, q: int, r: int)
    requires y == TWO_64 * q + r && 0 <= r < TWO_64
    ensures y % TWO_64 == r
  {
  }

  lemma WrapTwice(v: int, d: int)
    ensures Wrap64(Wrap64(v) * 10 + d) == Wrap64(v * 10 + d)
  {
    var q := (v + TWO_63) / TWO_64;
    assert Wrap64(v) == v - q * TWO_64;
    assert Wrap64(v) * 10 + d == (v * 10 + d) + (-10 * q) * TWO_64;
    WrapAround(v * 10 + d, -10 * q);
    hide Wrap64;
  }

  /** Wrapping at every digit wraps the number. */
  lemma {:induction false} NumberWraps(digits: string)
    requires AllDigits(digits)
    ensures Number(digits) == Wrap64(Value(digits))
  {
    if digits != "" {
      var n := |digits| - 1;
      NumberWraps(digits[..n]);
      WrapTwice(Value(digits[..n]), digits[n] as int - '0' as int);
      hide Wrap64;
    }
  }

  /** Parsing, for every header: it yields `t` and `s` exactly when, of the parts between
      the bars, the last that starts with `t=` has digits that denote `t` in 64 bits and
      the last that starts with `s=` has `s`. */
  lemma ParsesExactlyWhen(header: string, t: int, s: string)
    ensures Parse(header) == Some(Signature(t, s)) <==>
              && s != "" && LastGives(Split(header, '|'), "s", s)
              && exists digits ::
                   && LastGives(Split(header, '|'), "t", digits)
                   && digits != "" && AllDigits(digits) && t == Wrap64(Value(digits))
  {
    hide Split, Fields, LastGives, Wrap64, AllDigits, Number, Value;
    var parts := Split(header, '|');
    var digits, sig := Lookup(Fields(parts), "t"), Lookup(Fields(parts), "s");
    if digits != "" && AllDigits(digits) {
      NumberWraps(digits);
    }
    forall v: string | v != ""
      ensures digits == v <==> LastGives(parts, "t", v)
      ensures sig == v <==> LastGives(parts, "s", v)
    {
      FieldIsTheLastGiven(parts, "t", v);
      FieldIsTheLastGiven(parts, "s", v);
    }
  }

  // ---------- verification ----------

  datatype Verdict = Accepted | MissingOrMalformed | Expired | Mismatch

  /** The HMAC over secret, time and raw body, in hexadecimal. */
  type Hmac = (string, int, string) -> string

  /** The header under either of its two spellings. */
  function SignatureHeader(headers: map<string, string>): string {
    if Lookup(headers, "x-razorpay-signature") != "" then Lookup(headers, "x-razorpay-signature")
    else Lookup(headers, "X-Razorpay-Signature")
  }

  /** Which header is read: the lower-case name, unless it is missing or empty. */
  lemma EitherSpellingIsRead(headers: map<string, string>)
    ensures var lower, upper := "x-razorpay-signature", "X-Razorpay-Signature";
            if lower in headers && headers[lower] != "" then SignatureHeader(headers) == headers[lower]
            else if upper in headers then SignatureHeader(headers) == headers[upper]
            else SignatureHeader(headers) == ""
  {
  }

  /** A header as a sender writes it. */
  lemma AHeaderIsParsed()
    ensures Parse("t=17|s=ab") == Some(Signature(17, "ab"))
  {
    assert Decimal(17) == "17" by { assert Decimal(1) == "1"; }
    assert Print(17, "ab") == "t=17|s=ab";
    ParseInvertsPrint(17, "ab");
    hide Parse, Print;
  }

  /** The time distance as the code computes it. */
  function Skew(now: int, t: int): nat {
    var d := Wrap64(now - t);
    if d < 0 then -d else d
  }

  /** Accepts exactly a well-formed, fresh header that carries the HMAC of the body
      it came with; otherwise names the first check that failed. */
  method VerifyWebhook(hmac: Hmac, secret: string, headers: map<string, string>, rawBody: string, nowSeconds: int,
                       wall: int)
    returns (verdict: Verdict)
    ensures var parsed, now := Parse(SignatureHeader(headers)), if nowSeconds == 0 then wall else nowSeconds;
            && (verdict.MissingOrMalformed? <==> parsed.None?)
            && (verdict.Expired? <==> parsed.Some? && Skew(now, parsed.value.t) > MAX_WEBHOOK_SKEW_SECONDS)
            && (verdict.Accepted? <==> (parsed.Some? && Skew(now, parsed.value.t) <= MAX_WEBHOOK_SKEW_SECONDS
                                        && parsed.value.s == hmac(secret, parsed.value.t, rawBody)))
  {
    var hdr := Lookup(headers, "x-razorpay-signature");
    if hdr == "" {
      hdr := Lookup(headers, "X-Razorpay-Signature");
    }
    var t, sig, parsed := ParseSignatureHeader(hdr);
    if !parsed {
      return MissingOrMalformed;
    }
    var now := nowSeconds;
    if now == 0 {
      now := wall;
    }
    var skew := Wrap64(now - t);
    if skew > MAX_WEBHOOK_SKEW_SECONDS || -skew > MAX_WEBHOOK_SKEW_SECONDS {
      return Expired;
    }
    var expected := hmac(secret, t, rawBody);
    if expected != sig {
      return Mismatch;
    }
    return Accepted;
  }

  /** What `VerifyWebhook` decides about the header a sender prints. */
  predicate Accepts(hmac: Hmac, secret: string, header: string, rawBody: string, now: int) {
    var parsed := Parse(header);
    parsed.Some? && Skew(now, parsed.value.t) <= MAX_WEBHOOK_SKEW_SECONDS
    && parsed.value.s == hmac(secret, parsed.value.t, rawBody)
  }

  /** A message signed at `t` for `signed` is accepted with the body `received`
      exactly when it arrives within 300 seconds either way and the body has the
      same HMAC - in particular when it was not altered. Only a clock 2^63 seconds
      before the epoch can make the 64-bit difference wrap around. */
  lemma FreshSignatureIsAccepted(hmac: Hmac, secret: string, t: nat, signed: string, received: string, now: int)
    requires t < TWO_63 && -TWO_63 <= now < TWO_63
    requires var sig := hmac(secret, t, signed); sig != "" && '|' !in sig
    ensures Accepts(hmac, secret, Print(t, hmac(secret, t, signed)), received, now) <==>
              (t - 300 <= now <= t + 300 || now + TWO_64 <= t + 300)
                && hmac(secret, t, received) == hmac(secret, t, signed)
    ensures now >= 0 ==>
              (Accepts(hmac, secret, Print(t, hmac(secret, t, signed)), signed, now) <==> t - 300 <= now <= t + 300)
  {
    ParseInvertsPrint(t, hmac(secret, t, signed));
    hide Parse, Print;
  }
}
