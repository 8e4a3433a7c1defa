/** The eSewa payment gateway's signing scheme: the message built from the
    signed fields, the signature over it, its verification, and the payment
    form with its defaults. The keyed digest (HMAC-SHA256 as in RFC 2104,
    then Base64 as in section 4 of RFC 4648) is a function the
    configuration supplies. */
module Esewa {
  import opened Wrappers
  import opened Text

  const MERCHANT_ID := "EPAYTEST"
  const API_URL := "https://rc-epay.esewa.com.np/api/epay/main/v2/form"
  const DEFAULT_PRODUCT_NAME := "MERZi Order"
  /** The fields the form signs, in signing order. */
  const SIGNED_FIELDS: seq<string> := ["total_amount", "transaction_uuid", "product_code"]
  const SIGNED_FIELD_NAMES: string := "total_amount,transaction_uuid,product_code"

  /** Request data: a field that is absent or null is missing from the map. */
  type Fields = map<string, string>

  /** The secret key, the merchant id, and the keyed digest of a message. */
  datatype Config = Config(secretKey: string, merchantId: string, mac: (string, string) -> string)

  /** The default configuration takes the test merchant id. */
  function ConfigOf(secretKey: string, merchantId: Option<string>, mac: (string, string) -> string): (c: Config)
    ensures c.merchantId == merchantId.GetOr(MERCHANT_ID) && c.secretKey == secretKey
  {
    Config(secretKey, merchantId.GetOr(MERCHANT_ID), mac)
  }

  /** `field=value`, for a present field. */
  function Pair(f: string, data: Fields): string
    requires f in data
  {
    f + "=" + data[f]
  }

  /** The pairs of the present fields, in field order. */
  function Pairs(fields: seq<string>, data: Fields): (r: seq<string>)
    ensures |r| <= |fields|
  {
    if fields == [] then []
    else (if fields[0] in data then [Pair(fields[0], data)] else []) + Pairs(fields[1..], data)
  }

  /** What the loop appends: each present pair followed by a comma. */
  function Pieces(fields: seq<string>, data: Fields): string
  {
    if fields == [] then ""
    else (if fields[0] in data then Pair(fields[0], data) + "," else "") + Pieces(fields[1..], data)
  }

  /** PHP's rtrim with one character: every trailing copy removed. */
  function TrimTrailing(s: string, c: char): (r: string)
    ensures |r| <= |s| && r == s[..|r|]
    ensures r == [] || r[|r| - 1] != c
    ensures forall i | |r| <= i < |s| :: s[i] == c
  {
    if |s| > 0 && s[|s| - 1] == c then TrimTrailing(s[..|s| - 1], c) else s
  }

  /** The signed message over a list of fields. */
  function Message(fields: seq<string>, data: Fields): string
  {
    TrimTrailing(Pieces(fields, data), ',')
  }

  lemma {:induction false} PiecesAppend(fields: seq<string>, f: string, data: Fields)
    ensures Pieces(fields + [f], data) == Pieces(fields, data) + (if f in data then Pair(f, data) + "," else "")
    decreases |fields|
  {
    var tail := if f in data then Pair(f, data) + "," else "";
    if fields == [] {
      assert [f][1..] == [];
      assert Pieces([f], data) == tail + "";
    } else {
      var head := if fields[0] in data then Pair(fields[0], data) + "," else "";
      assert (fields + [f])[1..] == fields[1..] + [f];
      PiecesAppend(fields[1..], f, data);
      assert Pieces(fields + [f], data) == head + (Pieces(fields[1..], data) + tail);
    }
  }

  /** The loop building the message, then the trailing commas trimmed. */
  method BuildMessage(fields: seq<string>, data: Fields) returns (m: string)
    ensures m == Message(fields, data)
  {
    m := "";
    for i := 0 to |fields|
      invariant m == Pieces(fields[..i], data)
    {
      assert fields[..i + 1] == fields[..i] + [fields[i]];
      PiecesAppend(fields[..i], fields[i], data);
      var field := fields[i];
      if field in data {
        m := m + field + "=" + data[field] + ",";
      }
    }
    assert fields[..|fields|] == fields;
    m := TrimTrailing(m, ',');
  }

  /** The pieces are the pairs joined by commas, plus one last comma. */
  lemma {:induction false} PiecesJoin(fields: seq<string>, data: Fields)
    ensures Pairs(fields, data) == [] ==> Pieces(fields, data) == ""
    ensures Pairs(fields, data) != [] ==> Pieces(fields, data) == Join(Pairs(fields, data), ",") + ","
    decreases |fields|
  {
    if fields != [] {
      PiecesJoin(fields[1..], data);
      var rest := Pairs(fields[1..], data);
      if fields[0] !in data {
        assert Pairs(fields, data) == rest;
        assert Pieces(fields, data) == Pieces(fields[1..], data);
      } else if rest == [] {
        assert Pairs(fields, data) == [Pair(fields[0], data)];
      } else {
        var p := Pair(fields[0], data);
        var ps := [p] + rest;
        assert ps[1..] == rest;
        assert Join(ps, ",") == p + "," + Join(rest, ",");
        assert Pieces(fields, data) == p + "," + (Join(rest, ",") + ",");
        assert p + "," + (Join(rest, ",") + ",") == (p + "," + Join(rest, ",")) + ",";
      }
    }
  }

  /** A value that does not end with a comma. */
  predicate CommaFree(v: string) { v == [] || v[|v| - 1] != ',' }

  lemma {:induction false} JoinEnds(parts: seq<string>, sep: string)
    requires |parts| >= 1 && |parts[|parts| - 1]| >= 1
    ensures var j := Join(parts, sep); |j| >= 1 && j[|j| - 1] == parts[|parts| - 1][|parts[|parts| - 1]| - 1]
    decreases |parts|
  {
    if |parts| > 1 {
      JoinEnds(parts[1..], sep);
    }
  }

  lemma {:induction false} PairsEndWell(fields: seq<string>, data: Fields)
    requires forall f | f in fields && f in data :: CommaFree(data[f])
    ensures forall k | 0 <= k < |Pairs(fields, data)| :: |Pairs(fields, data)[k]| >= 1 && CommaFree(Pairs(fields, data)[k])
    decreases |fields|
  {
    if fields != [] {
      PairsEndWell(fields[1..], data);
      if fields[0] in data {
        var p := Pair(fields[0], data);
        var v := data[fields[0]];
        assert p == fields[0] + "=" + v;
        if v != [] { assert p[|p| - 1] == v[|v| - 1]; } else { assert p[|p| - 1] == '='; }
      }
    }
  }

  /** The signed message is the present pairs joined by commas, with no
      trailing comma, when no signed value itself ends with a comma. */
  lemma MessageIsJoin(fields: seq<string>, data: Fields)
    requires forall f | f in fields && f in data :: CommaFree(data[f])
    ensures Message(fields, data) == Join(Pairs(fields, data), ",")
  {
    PiecesJoin(fields, data);
    var ps := Pairs(fields, data);
    if ps != [] {
      PairsEndWell(fields, data);
      JoinEnds(ps, ",");
      var j := Join(ps, ",");
      assert (j + ",")[..|j|] == j;
    }
  }

  /** The signature over the signed fields of some data. */
  function Signature(cfg: Config, data: Fields): string
  {
    cfg.mac(Message(SIGNED_FIELDS, data), cfg.secretKey)
  }

  method GenerateSignature(cfg: Config, data: Fields) returns (signature: string)
    ensures signature == Signature(cfg, data)
  {
    var message := BuildMessage(SIGNED_FIELDS, data);
    signature := cfg.mac(message, cfg.secretKey);
  }

  /** Data verifies when it carries a signature and the names of the signed
      fields, and the signature over those fields, in that order, is the
      one it carries. */
  predicate Verifies(cfg: Config, data: Fields)
  {
    && "signature" in data && "signed_field_names" in data
    && cfg.mac(Message(Split(data["signed_field_names"], ','), data), cfg.secretKey) == data["signature"]
  }

  method VerifySignature(cfg: Config, data: Fields) returns (ok: bool)
    ensures ok == Verifies(cfg, data)
    ensures "signature" !in data || "signed_field_names" !in data ==> !ok
  {
    if "signature" !in data || "signed_field_names" !in data {
      return false;
    }
    var signedFields := Split(data["signed_field_names"], ',');
    var message := BuildMessage(signedFields, data);
    var expected := cfg.mac(message, cfg.secretKey);
    ok := expected == data["signature"];
  }

  /** The order data a form is built from; an absent item is None. */
  datatype OrderData = OrderData(
    transactionUuid: Option<string>,
    amount: Option<nat>,
    taxAmount: Option<nat>,
    totalAmount: Option<nat>,
    productCode: Option<string>,
    productName: Option<string>,
    serviceCharge: Option<nat>,
    deliveryCharge: Option<nat>,
    successUrl: Option<string>,
    failureUrl: Option<string>)

  function Amount(n: Option<nat>): string { NatToString(n.GetOr(0)) }

  /** The values the form signs. */
  function SignedValues(total: string, uuid: string, code: string): (m: Fields)
    ensures m.Keys == {"total_amount", "transaction_uuid", "product_code"}
    ensures m["total_amount"] == total && m["transaction_uuid"] == uuid && m["product_code"] == code
  {
    map["total_amount" := total, "transaction_uuid" := uuid, "product_code" := code]
  }

  /** The fields of the payment form the browser posts to the gateway. */
  datatype PaymentForm = PaymentForm(
    amount: string,
    taxAmount: string,
    totalAmount: string,
    transactionUuid: string,
    productCode: string,
    productName: string,
    serviceCharge: string,
    deliveryCharge: string,
    successUrl: string,
    failureUrl: string,
    signedFieldNames: string,
    signature: string)

  /** The payment form: amounts default to zero, the product code to the
      merchant id, the name to the shop's default, the transaction id to a
      fresh one, the urls to empty; it names the signed fields and carries
      the signature over them. */
  function FormData(cfg: Config, d: OrderData, freshUuid: string): (p: PaymentForm)
    ensures p.amount == Amount(d.amount) && p.taxAmount == Amount(d.taxAmount) && p.totalAmount == Amount(d.totalAmount)
    ensures p.transactionUuid == d.transactionUuid.GetOr(freshUuid)
    ensures p.productCode == d.productCode.GetOr(cfg.merchantId)
    ensures p.productName == d.productName.GetOr(DEFAULT_PRODUCT_NAME)
    ensures p.serviceCharge == Amount(d.serviceCharge) && p.deliveryCharge == Amount(d.deliveryCharge)
    ensures p.successUrl == d.successUrl.GetOr("") && p.failureUrl == d.failureUrl.GetOr("")
    ensures p.signedFieldNames == SIGNED_FIELD_NAMES
    ensures p.signature == Signature(cfg, SignedValues(p.totalAmount, p.transactionUuid, p.productCode))
  {
    var uuid := d.transactionUuid.GetOr(freshUuid);
    var total := Amount(d.totalAmount);
    var code := d.productCode.GetOr(cfg.merchantId);
    PaymentForm(Amount(d.amount), Amount(d.taxAmount), total, uuid, code, d.productName.GetOr(DEFAULT_PRODUCT_NAME),
                Amount(d.serviceCharge), Amount(d.deliveryCharge), d.successUrl.GetOr(""), d.failureUrl.GetOr(""),
                SIGNED_FIELD_NAMES, Signature(cfg, SignedValues(total, uuid, code)))
  }

  /** The form as request fields, under the gateway's field names. */
  function Wire(p: PaymentForm): (f: Fields)
    ensures "total_amount" in f && f["total_amount"] == p.totalAmount
    ensures "transaction_uuid" in f && f["transaction_uuid"] == p.transactionUuid
    ensures "product_code" in f && f["product_code"] == p.productCode
    ensures "signed_field_names" in f && f["signed_field_names"] == p.signedFieldNames
    ensures "signature" in f && f["signature"] == p.signature
  {
    map["amount" := p.amount, "tax_amount" := p.taxAmount, "product_name" := p.productName,
        "product_service_charge" := p.serviceCharge, "product_delivery_charge" := p.deliveryCharge,
        "success_url" := p.successUrl, "failure_url" := p.failureUrl]
    + map["total_amount" := p.totalAmount, "transaction_uuid" := p.transactionUuid, "product_code" := p.productCode,
          "signed_field_names" := p.signedFieldNames, "signature" := p.signature]
  }

  /** The message depends only on the listed fields' values. */
  lemma {:induction false} PiecesAgree(fields: seq<string>, d1: Fields, d2: Fields)
    requires forall i | 0 <= i < |fields| :: (fields[i] in d1 <==> fields[i] in d2) && (fields[i] in d1 ==> d1[fields[i]] == d2[fields[i]])
    ensures Pieces(fields, d1) == Pieces(fields, d2)
    decreases |fields|
  {
    if fields != [] {
      PiecesAgree(fields[1..], d1, d2);
    }
  }

  lemma SignedNamesJoin()
    ensures Join(SIGNED_FIELDS, ",") == SIGNED_FIELD_NAMES
  {
    var fs := SIGNED_FIELDS;
    assert fs[1..] == ["transaction_uuid", "product_code"];
    assert fs[1..][1..] == ["product_code"];
    assert Join(fs, ",") == "total_amount" + "," + ("transaction_uuid" + "," + "product_code");
  }

  /** The names the form sends split back into the signed fields. */
  lemma SignedNamesSplit()
    ensures Split(SIGNED_FIELD_NAMES, ',') == SIGNED_FIELDS
  {
    SignedNamesJoin();
    var fs := SIGNED_FIELDS;
    assert forall i | 0 <= i < |fs| :: ',' !in fs[i];
    SplitJoin(fs, ',');
  }

  /** Data that names the three signed fields and carries the signature
      over their values. */
  predicate CarriesSignature(cfg: Config, f: Fields)
  {
    && "total_amount" in f && "transaction_uuid" in f && "product_code" in f
    && "signed_field_names" in f && f["signed_field_names"] == SIGNED_FIELD_NAMES
    && "signature" in f
    && f["signature"] == Signature(cfg, SignedValues(f["total_amount"], f["transaction_uuid"], f["product_code"]))
  }

  /** Such data verifies, whatever else it holds. */
  lemma SignedDataVerifies(cfg: Config, f: Fields)
    requires CarriesSignature(cfg, f)
    ensures Verifies(cfg, f)
  {
    SignedNamesSplit();
    var signed := SignedValues(f["total_amount"], f["transaction_uuid"], f["product_code"]);
    SignedMessageAgrees(f, signed);
    assert Split(f["signed_field_names"], ',') == SIGNED_FIELDS;
    assert f["signature"] == cfg.mac(Message(SIGNED_FIELDS, signed), cfg.secretKey);
  }

  lemma SignedMessageAgrees(f: Fields, signed: Fields)
    requires "total_amount" in f && "transaction_uuid" in f && "product_code" in f
    requires signed == SignedValues(f["total_amount"], f["transaction_uuid"], f["product_code"])
    ensures Message(SIGNED_FIELDS, f) == Message(SIGNED_FIELDS, signed)
  {
    var fs := SIGNED_FIELDS;
    forall i | 0 <= i < |fs|
      ensures fs[i] in f && fs[i] in signed && f[fs[i]] == signed[fs[i]]
    {
      if i == 0 {
        assert fs[i] == "total_amount";
      } else if i == 1 {
        assert fs[i] == "transaction_uuid";
      } else {
        assert fs[i] == "product_code";
      }
    }
    PiecesAgree(fs, f, signed);
  }

  /** Setting a field that is neither signed nor part of the signature
      keeps the signature valid. */
  lemma UnsignedFieldKeepsSignature(cfg: Config, f: Fields, k: string, v: string)
    requires CarriesSignature(cfg, f)
    requires k != "total_amount" && k != "transaction_uuid" && k != "product_code"
    requires k != "signature" && k != "signed_field_names"
    ensures CarriesSignature(cfg, f[k := v]) && Verifies(cfg, f[k := v])
  {
    SignedDataVerifies(cfg, f[k := v]);
  }

  /** A form verifies under the key that signed it. */
  lemma FormVerifies(cfg: Config, d: OrderData, freshUuid: string)
    ensures CarriesSignature(cfg, Wire(FormData(cfg, d, freshUuid)))
    ensures Verifies(cfg, Wire(FormData(cfg, d, freshUuid)))
  {
    SignedDataVerifies(cfg, Wire(FormData(cfg, d, freshUuid)));
  }

  /** Trimming the one trailing comma after a body that ends otherwise. */
  lemma TrimLastComma(body: string)
    requires CommaFree(body)
    ensures TrimTrailing(body + ",", ',') == body
  {
    assert (body + ",")[..|body|] == body;
  }

  lemma SignedPieces(total: string, uuid: string, code: string)
    ensures Pieces(SIGNED_FIELDS, SignedValues(total, uuid, code))
            == "total_amount=" + total + "," + "transaction_uuid=" + uuid + "," + "product_code=" + code + ","
  {
    var m := SignedValues(total, uuid, code);
    var fs := SIGNED_FIELDS;
    assert fs[1..][1..] == [fs[2]] && fs[2..][1..] == [];
    var a := "total_amount=" + total;
    var b := "transaction_uuid=" + uuid;
    var c := "product_code=" + code;
    assert Pieces(fs[2..], m) == c + ",";
    assert Pieces(fs[1..], m) == b + "," + (c + ",");
    assert Pieces(fs, m) == a + "," + (b + "," + (c + ","));
  }

  /** With the three values present, the message is exactly
      `total_amount=…,transaction_uuid=…,product_code=…`. */
  lemma SignedMessage(total: string, uuid: string, code: string)
    requires CommaFree(code)
    ensures Message(SIGNED_FIELDS, SignedValues(total, uuid, code))
            == "total_amount=" + total + "," + "transaction_uuid=" + uuid + "," + "product_code=" + code
  {
    SignedPieces(total, uuid, code);
    var body := "total_amount=" + total + "," + "transaction_uuid=" + uuid + "," + "product_code=" + code;
    assert CommaFree(body) by {
      if code != [] { assert body[|body| - 1] == code[|code| - 1]; } else { assert body[|body| - 1] == '='; }
    }
    TrimLastComma(body);
  }
}
