/** The seller settings endpoint (PUT): the WhatsApp number is required, is reduced to
    its digits, must keep at least ten of them, and is stored with the name and phone. */
module SellerSettings {
  import opened Wrappers
  import opened Strings
  import opened JsValues
  import opened Http

  const WhatsappRequired := Reply(400, "El número de WhatsApp es requerido")
  const WhatsappInvalid := Reply(400, "Número de WhatsApp inválido")
  const MinDigits := 10

  /** The update written for the seller: `nombre` as sent (None: not sent),
      `telefono || null`, and the digits-only WhatsApp number. */
  datatype SellerUpdate = SellerUpdate(nombre: Option<Value>, telefono: Value, whatsapp: string)

  /** What PUT does: answer with an error, or update seller `id`. */
  datatype Outcome = Refused(reply: Reply) | Update(id: int, data: SellerUpdate)

  /** `whatsapp.replace(/\D/g, "")`: only digits, in their original order. */
  function Normalize(s: string): (r: string)
    ensures forall i :: 0 <= i < |r| ==> IsDigit(r[i])
    ensures |r| <= |s|
  {
    DigitsOf(s)
  }

  /** What is kept keeps its order: the result is the input with characters deleted. */
  lemma NormalizeKeepsOrder(s: string)
    ensures IsSubsequence(Normalize(s), s)
  {
    DigitsOfIsSubsequence(s);
  }

  /** A number already made of digits only is left as it is. */
  lemma NormalizeKeepsDigits(s: string)
    requires forall i :: 0 <= i < |s| ==> IsDigit(s[i])
    ensures Normalize(s) == s
  {
    DigitsOfDigits(s);
  }

  /** PUT. `seller` is the session's seller id (None: no session); `body` is the parsed
      JSON. None stands for a body that does not parse or parses to `null`, on which
      reading a field throws; any other non-object (an array, a number, a string, a
      boolean) reads every field as undefined and is passed as the empty object. A
      truthy WhatsApp that is not a string has no `trim`, so it throws too: those are
      answered with a 500. */
  function Configure(seller: Option<int>, body: Option<Object>): (r: Outcome)
    ensures seller.None? ==> r == Refused(Unauthorized)
    ensures seller.Some? && body.None? ==> r == Refused(InternalError)
    ensures seller.Some? && body.Some? && Truthy(Get(body.value, "whatsapp")) && !Get(body.value, "whatsapp").value.Str? ==>
      r == Refused(InternalError)
    ensures seller.Some? && body.Some? && !Truthy(Get(body.value, "whatsapp")) ==>
      r == Refused(WhatsappRequired)
    ensures seller.Some? && body.Some? && Get(body.value, "whatsapp").Some? && Get(body.value, "whatsapp").value.Str? ==>
      var w := Get(body.value, "whatsapp").value.s;
      && (AllWhitespace(w) ==> r == Refused(WhatsappRequired))
      && (!AllWhitespace(w) && |Normalize(w)| < MinDigits ==> r == Refused(WhatsappInvalid))
      && (!AllWhitespace(w) && |Normalize(w)| >= MinDigits ==>
            r == Update(seller.value, SellerUpdate(Get(body.value, "nombre"),
                                                   Or(Get(body.value, "telefono"), Null),
                                                   Normalize(w))))
    ensures r.Update? ==> seller.Some? && r.id == seller.value && |r.data.whatsapp| >= MinDigits
  {
    if seller.None? then Refused(Unauthorized)
    else if body.None? then Refused(InternalError)
    else
      var b := body.value;
      var wv := Get(b, "whatsapp");
      if !Truthy(wv) then Refused(WhatsappRequired)
      else if !wv.value.Str? then Refused(InternalError)
      else
        TrimEmptyIffAllWhitespace(wv.value.s);
        if Trim(wv.value.s) == "" then Refused(WhatsappRequired)
        else
          var digits := Normalize(wv.value.s);
          if |digits| < MinDigits then Refused(WhatsappInvalid)
          else Update(seller.value, SellerUpdate(Get(b, "nombre"), Or(Get(b, "telefono"), Null), digits))
  }

  /** A body that is no object but not `null` either (passed as the empty object) has no
      WhatsApp, so the answer is the 400, not the 500. */
  lemma NonObjectBodyNeedsWhatsapp(seller: int)
    ensures Configure(Some(seller), Some(map[])) == Refused(WhatsappRequired)
  {
  }

  /** Normalising twice is normalising once. */
  lemma NormalizeIdempotent(s: string)
    ensures Normalize(Normalize(s)) == Normalize(s)
  {
    DigitsOfIdempotent(s);
  }

  /** Digits are kept in their original order, and each piece of the input contributes
      its own digits. */
  lemma NormalizeComposes(a: string, b: string)
    ensures Normalize(a + b) == Normalize(a) + Normalize(b)
  {
    DigitsOfAppend(a, b);
  }

  /** One group of the example: its separator goes, its digits stay. */
  lemma GroupDigits(sep: char, g: string)
    requires !IsDigit(sep) && forall i :: 0 <= i < |g| ==> IsDigit(g[i])
    ensures DigitsOf([sep] + g) == g
  {
    assert ([sep] + g)[1..] == g;
    DigitsOfDigits(g);
  }

  /** A number written `+CC AAA BBB CCCC` keeps exactly its groups of digits. */
  lemma {:induction false} SpacedNumber(g0: string, g1: string, g2: string, g3: string)
    requires forall i :: 0 <= i < |g0| ==> IsDigit(g0[i])
    requires forall i :: 0 <= i < |g1| ==> IsDigit(g1[i])
    requires forall i :: 0 <= i < |g2| ==> IsDigit(g2[i])
    requires forall i :: 0 <= i < |g3| ==> IsDigit(g3[i])
    ensures DigitsOf(['+'] + g0 + [' '] + g1 + [' '] + g2 + [' '] + g3) == g0 + g1 + g2 + g3
  {
    var a, b, c, d := ['+'] + g0, [' '] + g1, [' '] + g2, [' '] + g3;
    GroupDigits('+', g0);
    GroupDigits(' ', g1);
    GroupDigits(' ', g2);
    GroupDigits(' ', g3);
    DigitsOfAppend(a + b + c, d);
    DigitsOfAppend(a + b, c);
    DigitsOfAppend(a, b);
    assert a + b + c + d == ['+'] + g0 + [' '] + g1 + [' '] + g2 + [' '] + g3;
  }

  /** The Colombian example: spaces and the plus sign go, the twelve digits stay. */
  lemma ColombianDigits()
    ensures DigitsOf("+" + "57" + " " + "300" + " " + "123" + " " + "4567") == "57" + "300" + "123" + "4567"
  {
    SpacedNumber("57", "300", "123", "4567");
  }

  /** Sent alone, a number in that layout is stored as its digits with a null phone,
      provided there are at least ten of them; with fewer nothing is written. */
  lemma SpacedNumberStored(id: int, g0: string, g1: string, g2: string, g3: string)
    requires forall i :: 0 <= i < |g0| ==> IsDigit(g0[i])
    requires forall i :: 0 <= i < |g1| ==> IsDigit(g1[i])
    requires forall i :: 0 <= i < |g2| ==> IsDigit(g2[i])
    requires forall i :: 0 <= i < |g3| ==> IsDigit(g3[i])
    ensures var w := ['+'] + g0 + [' '] + g1 + [' '] + g2 + [' '] + g3;
      var r := Configure(Some(id), Some(map["whatsapp" := Str(w)]));
      && (|g0 + g1 + g2 + g3| >= MinDigits ==> r == Update(id, SellerUpdate(None, Null, g0 + g1 + g2 + g3)))
      && (|g0 + g1 + g2 + g3| < MinDigits ==> r == Refused(WhatsappInvalid))
  {
    var w := ['+'] + g0 + [' '] + g1 + [' '] + g2 + [' '] + g3;
    var b := map["whatsapp" := Str(w)];
    SpacedNumber(g0, g1, g2, g3);
    assert !IsJsWhitespace(w[0]);
    assert Get(b, "whatsapp") == Some(Str(w));
    assert Get(b, "nombre") == None && Get(b, "telefono") == None;
  }
}
