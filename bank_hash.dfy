/** The bank payment page integration in server.js (a commented-out block):
    the string the request hash is computed over, the hidden form posted to the
    bank's 3-D Secure gate, and the test that decides whether the bank's answer
    means success. SHA-512 followed by base64 is the `digest` parameter. */
module BankHash {
  import opened Common

  /** The merchant constants of the payment page. */
  datatype Settings = Settings(
    clientId: string,
    storeKey: string,
    okUrl: string,
    failUrl: string,
    currency: string,
    tranType: string,
    storeType: string,
    lang: string,
    taksit: string,
    encoding: string)

  /** A value read from the request body: absent, JSON null, or a string. */
  datatype BodyValue = Undefined | Null | Str(s: string)

  /** How `+` and a template literal render a body value. */
  function Text(v: BodyValue): string
  {
    match v
    case Undefined => "undefined"
    case Null => "null"
    case Str(s) => s
  }

  /** How `Array.prototype.join` renders an element: undefined and null become "". */
  function JoinText(v: BodyValue): string
  {
    if v.Str? then v.s else ""
  }

  /** The nine hashed values as /create-payment-alt lists them; the store key is last. */
  function HashFields(s: Settings, orderId: BodyValue, amount: string, rnd: string): seq<BodyValue>
  {
    [Str(s.clientId), orderId, Str(amount), Str(s.okUrl), Str(s.failUrl), Str(s.tranType),
     Str(s.taksit), Str(rnd), Str(s.storeKey)]
  }

  /** The hash input of /create-payment: the nine values concatenated with `+`,
      so an absent order id is spelled "undefined". It starts with the client
      id and ends with the store key. */
  function HashInput(s: Settings, orderId: BodyValue, amount: string, rnd: string): (h: string)
    ensures |h| >= |s.clientId| + |s.storeKey|
    ensures h[..|s.clientId|] == s.clientId
    ensures h[|h| - |s.storeKey|..] == s.storeKey
  {
    var front := s.clientId + Text(orderId) + amount + s.okUrl + s.failUrl + s.tranType + s.taksit + rnd;
    assert (front + s.storeKey)[..|s.clientId|] == s.clientId;
    assert (front + s.storeKey)[|front|..] == s.storeKey;
    front + s.storeKey
  }

  /** The `+` chain read from the right: each value in front of the rest. */
  lemma HashInputFromRight(s: Settings, orderId: BodyValue, amount: string, rnd: string)
    ensures HashInput(s, orderId, amount, rnd) ==
      s.clientId + (Text(orderId) + (amount + (s.okUrl + (s.failUrl + (s.tranType
      + (s.taksit + (rnd + s.storeKey)))))))
  {
  }

  /** `parts.join('')`. A list holding only undefined and null joins to "". */
  function Join(parts: seq<BodyValue>): (r: string)
    ensures (forall i :: 0 <= i < |parts| ==> !parts[i].Str?) ==> r == ""
    decreases |parts|
  {
    if |parts| == 0 then "" else JoinText(parts[0]) + Join(parts[1..])
  }

  /** Joining a list whose first element is `a` puts `a`'s join text in front of the rest. */
  lemma JoinCons(a: BodyValue, rest: seq<BodyValue>)
    ensures Join([a] + rest) == JoinText(a) + Join(rest)
  {
    assert ([a] + rest)[1..] == rest;
  }

  /** Joining a list that starts with `a`, `b`, `c` puts their join texts in front of the rest. */
  lemma JoinCons3(a: BodyValue, b: BodyValue, c: BodyValue, rest: seq<BodyValue>)
    ensures Join([a, b, c] + rest) == JoinText(a) + (JoinText(b) + (JoinText(c) + Join(rest)))
  {
    assert [a, b, c] + rest == [a] + ([b] + ([c] + rest));
    JoinCons(c, rest);
    JoinCons(b, [c] + rest);
    JoinCons(a, [b] + ([c] + rest));
  }

  /** The nine values joined, read from the right: each join text in front of the rest. */
  lemma {:induction false} JoinHashFields(s: Settings, orderId: BodyValue, amount: string, rnd: string)
    ensures Join(HashFields(s, orderId, amount, rnd)) ==
      s.clientId + (JoinText(orderId) + (amount + (s.okUrl + (s.failUrl + (s.tranType
      + (s.taksit + (rnd + s.storeKey)))))))
  {
    var head: seq<BodyValue> := [Str(s.clientId), orderId, Str(amount)];
    var middle: seq<BodyValue> := [Str(s.okUrl), Str(s.failUrl), Str(s.tranType)];
    var tail: seq<BodyValue> := [Str(s.taksit), Str(rnd), Str(s.storeKey)];
    assert HashFields(s, orderId, amount, rnd) == head + (middle + (tail + []));
    JoinCons3(Str(s.taksit), Str(rnd), Str(s.storeKey), []);
    JoinCons3(Str(s.okUrl), Str(s.failUrl), Str(s.tranType), tail + []);
    JoinCons3(Str(s.clientId), orderId, Str(amount), middle + (tail + []));
  }

  /** /create-payment-alt's `[...].join('')` builds the string /create-payment's
      `+` chain builds for the order id as `join` renders it; the two agree
      whenever the body carries the order id as a string. */
  lemma {:induction false} JoinMatchesConcat(s: Settings, orderId: BodyValue, amount: string, rnd: string)
    ensures Join(HashFields(s, orderId, amount, rnd)) == HashInput(s, Str(JoinText(orderId)), amount, rnd)
    ensures orderId.Str? ==> Join(HashFields(s, orderId, amount, rnd)) == HashInput(s, orderId, amount, rnd)
  {
    JoinHashFields(s, orderId, amount, rnd);
    HashInputFromRight(s, Str(JoinText(orderId)), amount, rnd);
  }

  /** With no instalment count (`taksit` is "") the hash input is the other
      eight values run together. */
  lemma HashInputShape(s: Settings, orderId: BodyValue, amount: string, rnd: string)
    ensures s.taksit == "" ==>
      HashInput(s, orderId, amount, rnd) ==
      s.clientId + Text(orderId) + amount + s.okUrl + s.failUrl + s.tranType + rnd + s.storeKey
  {
    if s.taksit == "" {
      assert s.tranType + s.taksit == s.tranType;
    }
  }

  /** The values are run together with no separator, so the order id and the
      amount are not told apart: these two requests hash the same string. */
  lemma FieldBoundariesNotEncoded(s: Settings, rnd: string)
    ensures HashInput(s, Str("ORD-1"), "12.00", rnd) == HashInput(s, Str("ORD-11"), "2.00", rnd)
  {
    var tail := s.okUrl + (s.failUrl + (s.tranType + (s.taksit + (rnd + s.storeKey))));
    HashInputFromRight(s, Str("ORD-1"), "12.00", rnd);
    HashInputFromRight(s, Str("ORD-11"), "2.00", rnd);
    assert "ORD-1" + ("12.00" + tail) == "ORD-11" + ("2.00" + tail) by {
      assert "ORD-1" + "12.00" == "ORD-11" + "2.00";
      assert "ORD-1" + ("12.00" + tail) == ("ORD-1" + "12.00") + tail;
      assert "ORD-11" + ("2.00" + tail) == ("ORD-11" + "2.00") + tail;
    }
  }

  /** The hidden inputs of the form auto-submitted to the bank's gate. */
  datatype PaymentForm = PaymentForm(
    clientid: string,
    storetype: string,
    amount: string,
    oid: string,
    okUrl: string,
    failUrl: string,
    currency: string,
    lang: string,
    tranType: string,
    rnd: string,
    hash: string,
    taksit: string,
    encoding: string)

  /** The form /create-payment posts: the settings, the order id as the
      template renders it, the amount already formatted with two decimals, the
      nonce, and `hash` as the digest of HashInput. */
  function BuildForm(s: Settings, orderId: BodyValue, amount: string, rnd: string, digest: string -> string)
    : (f: PaymentForm)
    ensures f.oid == Text(orderId) && f.amount == amount && f.rnd == rnd
    ensures f.hash == digest(HashInput(s, orderId, amount, rnd))
  {
    PaymentForm(s.clientId, s.storeType, amount, Text(orderId), s.okUrl, s.failUrl, s.currency, s.lang,
                s.tranType, rnd, digest(HashInput(s, orderId, amount, rnd)), s.taksit, s.encoding)
  }

  /** The form /create-payment-alt posts: the same inputs, its hash over the joined list. */
  function BuildFormAlt(s: Settings, orderId: BodyValue, amount: string, rnd: string, digest: string -> string)
    : (f: PaymentForm)
    ensures f.oid == Text(orderId) && f.amount == amount && f.rnd == rnd
    ensures f.hash == digest(Join(HashFields(s, orderId, amount, rnd)))
  {
    PaymentForm(s.clientId, s.storeType, amount, Text(orderId), s.okUrl, s.failUrl, s.currency, s.lang,
                s.tranType, rnd, digest(Join(HashFields(s, orderId, amount, rnd))), s.taksit, s.encoding)
  }

  /** The two endpoints post the same fields apart from the hash, and the same
      hash too when the body carries an order id. */
  lemma FormsAgree(s: Settings, orderId: BodyValue, amount: string, rnd: string, digest: string -> string)
    ensures BuildFormAlt(s, orderId, amount, rnd, digest).(hash := "") ==
            BuildForm(s, orderId, amount, rnd, digest).(hash := "")
    ensures orderId.Str? ==>
      BuildFormAlt(s, orderId, amount, rnd, digest) == BuildForm(s, orderId, amount, rnd, digest)
  {
    JoinMatchesConcat(s, orderId, amount, rnd);
  }

  /** The string a receiver holding the store key hashes to check a posted form. */
  function SignedString(f: PaymentForm, storeKey: string): string
  {
    f.clientid + f.oid + f.amount + f.okUrl + f.failUrl + f.tranType + f.taksit + f.rnd + storeKey
  }

  /** The hash a receiver holding the store key recomputes from a posted form. */
  function RecomputeHash(f: PaymentForm, storeKey: string, digest: string -> string): string
  {
    digest(SignedString(f, storeKey))
  }

  /** Round trip: every value the hash covers is posted in the form, so the
      form and the store key give its hash back, whatever the body held. */
  lemma FormHashRecomputes(s: Settings, orderId: BodyValue, amount: string, rnd: string, digest: string -> string)
    ensures var f := BuildForm(s, orderId, amount, rnd, digest);
      RecomputeHash(f, s.storeKey, digest) == f.hash
  {
  }

  /** Without an order id in the body, /create-payment-alt posts `oid` as
      "undefined" (or "null") but hashes a string in which the order id is
      empty: the string a receiver rebuilds from the posted fields is a
      different, longer one, the one /create-payment hashes. */
  lemma AltHashSkipsMissingOrderId(s: Settings, orderId: BodyValue, amount: string, rnd: string,
                                   digest: string -> string)
    ensures !orderId.Str? ==>
      var alt := BuildFormAlt(s, orderId, amount, rnd, digest);
      var hashed := Join(HashFields(s, orderId, amount, rnd));
      alt.hash == digest(hashed) &&
      alt.oid == Text(orderId) && |Text(orderId)| >= 4 &&
      SignedString(alt, s.storeKey) == HashInput(s, orderId, amount, rnd) &&
      |SignedString(alt, s.storeKey)| == |hashed| + |Text(orderId)|
  {
    JoinMatchesConcat(s, orderId, amount, rnd);
  }

  /** currency, lang, storetype and encoding are posted but not hashed:
      settings that differ only there give the same hash. */
  lemma UnsignedFields(s: Settings, t: Settings, orderId: BodyValue, amount: string, rnd: string,
                       digest: string -> string)
    requires t == s.(currency := t.currency, lang := t.lang, storeType := t.storeType, encoding := t.encoding)
    ensures BuildForm(t, orderId, amount, rnd, digest).hash == BuildForm(s, orderId, amount, rnd, digest).hash
  {
  }

  /** The bank's answer to /payment-result, the fields the handler reads. */
  function Field(body: map<string, string>, name: string): Option<string>
  {
    if name in body then Some(body[name]) else None
  }

  /** What the result page reports. */
  datatype CallbackOutcome =
    | Succeeded(transId: Option<string>, authCode: Option<string>)
    | Rejected(errorMessage: string, procReturnCode: Option<string>)

  /** `response === "Approved" && procReturnCode === "00"` decides the outcome;
      the hash the bank sends back is not checked. A failure reports `ErrMsg`,
      or "Unknown error" when it is absent or empty. */
  function HandleCallback(body: map<string, string>): (o: CallbackOutcome)
    ensures o.Succeeded? <==>
      "Response" in body && body["Response"] == "Approved" &&
      "ProcReturnCode" in body && body["ProcReturnCode"] == "00"
    ensures o.Succeeded? ==> o.transId == Field(body, "TransId") && o.authCode == Field(body, "AuthCode")
    ensures o.Rejected? ==> o.procReturnCode == Field(body, "ProcReturnCode")
    ensures o.Rejected? ==>
      o.errorMessage == (if "ErrMsg" in body && body["ErrMsg"] != "" then body["ErrMsg"] else "Unknown error")
  {
    if Field(body, "Response") == Some("Approved") && Field(body, "ProcReturnCode") == Some("00") then
      Succeeded(Field(body, "TransId"), Field(body, "AuthCode"))
    else
      var err := Field(body, "ErrMsg");
      Rejected(if err.Some? && err.value != "" then err.value else "Unknown error", Field(body, "ProcReturnCode"))
  }

  /** The outcome does not depend on the hash field: a forged answer with any
      hash, or none, is treated the same way. */
  lemma CallbackIgnoresHash(body: map<string, string>, forged: string)
    ensures HandleCallback(body["HASH" := forged]) == HandleCallback(body - {"HASH"})
    ensures HandleCallback(body["hash" := forged]) == HandleCallback(body - {"hash"})
  {
  }
}
