/** Seller metrics and buyer tracking (`trackingService.js`): durations shown
    as `1h 2m 3s`, and the message a buyer sees for each order status. */
module Tracking {
  import opened Base
  import opened Text

  // ---------------------------------------------------------------------------
  // formatTime
  // ---------------------------------------------------------------------------

  /** `Math.trunc`: the integer part, rounding toward zero. */
  function Trunc(x: real): (r: int)
    ensures x >= 0.0 ==> r == x.Floor
    ensures x >= 0.0 ==> 0 <= r && r as real <= x < r as real + 1.0
    ensures x < 0.0 ==> r <= 0 && r as real - 1.0 < x <= r as real
  {
    if x >= 0.0 then x.Floor else -((-x).Floor)
  }

  /** JavaScript's `x % m` on numbers: the remainder takes the sign of `x`. */
  function JsRem(x: real, m: real): real
    requires m > 0.0
  {
    x - m * Trunc(x / m) as real
  }

  function Hours(t: real): int { (t / 3600.0).Floor }

  function Minutes(t: real): int { (JsRem(t, 3600.0) / 60.0).Floor }

  function Seconds(t: real): int { JsRem(t, 60.0).Floor }

  /** For a non-negative duration the three fields rebuild its whole seconds,
      with minutes and seconds below 60. */
  lemma HmsReconstructs(t: real)
    requires t >= 0.0
    ensures Hours(t) >= 0 && 0 <= Minutes(t) < 60 && 0 <= Seconds(t) < 60
    ensures 3600 * Hours(t) + 60 * Minutes(t) + Seconds(t) == t.Floor
  {
    var h := Hours(t);
    assert h as real <= t / 3600.0 < h as real + 1.0;
    var r := JsRem(t, 3600.0);
    assert r == t - 3600.0 * h as real;
    assert 0.0 <= r < 3600.0;
    var q := (t / 60.0).Floor;
    assert q as real <= t / 60.0 < q as real + 1.0;
    assert t / 60.0 == 60.0 * h as real + r / 60.0;
    assert q == 60 * h + Minutes(t);
    var s := JsRem(t, 60.0);
    assert s == t - 60.0 * q as real;
    assert 0.0 <= s < 60.0;
    assert t.Floor == 60 * q + s.Floor;
  }

  /** One part of the text: a number and its unit letter. */
  datatype Part = Part(amount: int, unit: char)

  /** `w` has a number before its last character, and that character is `u`. */
  predicate EndsIn(w: string, u: char) {
    |w| >= 2 && w[|w| - 1] == u
  }

  /** `${amount}${unit}`. */
  function Render(p: Part): (r: string)
    ensures EndsIn(r, p.unit)
  {
    IntToString(p.amount) + [p.unit]
  }

  predicate HasUnit(parts: seq<Part>, u: char) {
    exists i :: 0 <= i < |parts| && parts[i].unit == u
  }

  /** The `h`, `m` and `s` parts of `h` hours, `m` minutes and `s` seconds, in
      that order: hours and minutes only when positive, seconds when positive
      or when nothing else is shown. */
  function HmsParts(h: int, m: int, s: int): (parts: seq<Part>)
    ensures 1 <= |parts| <= 3
    ensures HasUnit(parts, 'h') <==> h > 0
    ensures HasUnit(parts, 'm') <==> m > 0
    ensures HasUnit(parts, 's') <==> s > 0 || (h <= 0 && m <= 0)
    ensures forall i :: 0 <= i < |parts| ==>
      (parts[i].unit == 'h' && parts[i].amount == h)
      || (parts[i].unit == 'm' && parts[i].amount == m)
      || (parts[i].unit == 's' && parts[i].amount == s)
    ensures forall i, j :: 0 <= i < j < |parts| ==> UnitRank(parts[i].unit) < UnitRank(parts[j].unit)
  {
    var hp := if h > 0 then [Part(h, 'h')] else [];
    var mp := if m > 0 then [Part(m, 'm')] else [];
    var sp := if s > 0 || hp + mp == [] then [Part(s, 's')] else [];
    var parts := hp + mp + sp;
    assert hp != [] ==> parts[0] == hp[0];
    assert mp != [] ==> parts[|hp|] == mp[0];
    assert sp != [] ==> parts[|hp| + |mp|] == sp[0];
    assert forall i :: 0 <= i < |parts| ==>
      (i < |hp| && parts[i] == hp[i]) || (|hp| <= i < |hp| + |mp| && parts[i] == mp[i - |hp|]) || (|hp| + |mp| <= i && parts[i] == sp[i - |hp| - |mp|]);
    parts
  }

  function UnitRank(u: char): int { if u == 'h' then 0 else if u == 'm' then 1 else 2 }

  /** The rendered parts, in order. */
  function RenderAll(parts: seq<Part>): (words: seq<string>)
    ensures |words| == |parts|
    ensures forall i :: 0 <= i < |parts| ==> EndsIn(words[i], parts[i].unit)
  {
    seq(|parts|, i requires 0 <= i < |parts| => Render(parts[i]))
  }

  /** `words.join(' ')`. */
  function JoinWords(words: seq<string>): (r: string)
    requires |words| >= 1
    ensures |r| >= |words[|words| - 1]|
  {
    if |words| == 1 then words[0] else words[0] + " " + JoinWords(words[1..])
  }

  /** The joined text ends with the last word. */
  lemma {:induction false} JoinWordsEndsWithLast(words: seq<string>)
    requires |words| >= 1 && |words[|words| - 1]| >= 1
    ensures var r := JoinWords(words); var w := words[|words| - 1]; r[|r| - 1] == w[|w| - 1]
  {
    if |words| > 1 {
      var head := words[0] + " ";
      var rest := JoinWords(words[1..]);
      assert JoinWords(words) == head + rest;
      assert words[1..][|words[1..]| - 1] == words[|words| - 1];
      JoinWordsEndsWithLast(words[1..]);
      LastOfConcat(head, rest);
    }
  }

  lemma LastOfConcat(a: string, b: string)
    requires |b| >= 1
    ensures (a + b)[|a + b| - 1] == b[|b| - 1]
  {
  }

  /** The parts rendered and joined with single spaces. */
  function FormatParts(parts: seq<Part>): string
    requires |parts| >= 1
  {
    JoinWords(RenderAll(parts))
  }

  /** `formatTime`: `None` stands for `null` and `NaN`. */
  function FormatTime(totalSeconds: Option<real>): (r: string)
    ensures totalSeconds.None? ==> r == "N/A"
    ensures totalSeconds.Some? ==>
      var t := totalSeconds.value;
      r == JoinWords(RenderAll(HmsParts(Hours(t), Minutes(t), Seconds(t))))
  {
    if totalSeconds.None? then "N/A"
    else
      var t := totalSeconds.value;
      FormatParts(HmsParts(Hours(t), Minutes(t), Seconds(t)))
  }

  predicate IsUnit(c: char) { c == 'h' || c == 'm' || c == 's' }

  /** Text of at least two characters that ends in a unit letter, so it is not `N/A`. */
  predicate ShowsUnit(r: string) {
    var shows := |r| >= 2 && IsUnit(r[|r| - 1]) && r != "N/A";
    shows
  }

  /** Words whose last one ends in a unit letter join to text that ends in that letter. */
  lemma JoinedWordsEndInUnit(words: seq<string>, u: char)
    requires |words| >= 1 && EndsIn(words[|words| - 1], u) && IsUnit(u)
    ensures ShowsUnit(JoinWords(words))
  {
    JoinWordsEndsWithLast(words);
    assert "N/A"[2] == 'A';
  }

  /** Parts whose last one has a unit letter format to text that ends in that letter. */
  lemma FormattedPartsEndInUnit(parts: seq<Part>)
    requires |parts| >= 1 && IsUnit(parts[|parts| - 1].unit)
    ensures ShowsUnit(FormatParts(parts))
  {
    var words := RenderAll(parts);
    var last := parts[|parts| - 1];
    assert |words| == |parts|;
    assert EndsIn(words[|words| - 1], last.unit);
    JoinedWordsEndInUnit(words, last.unit);
  }

  /** A duration always shows something, ending in a unit letter, and never
      the `N/A` of a missing one. */
  lemma FormatTimeShowsUnits(t: real)
    ensures ShowsUnit(FormatTime(Some(t))) && FormatTime(Some(t)) != FormatTime(None)
  {
    var parts := HmsParts(Hours(t), Minutes(t), Seconds(t));
    assert IsUnit(parts[|parts| - 1].unit);
    FormattedPartsEndInUnit(parts);
  }

  // ---------------------------------------------------------------------------
  // getBuyerTrackingMessage
  // ---------------------------------------------------------------------------

  datatype Delivery = Delivery(deliveryMethod: string, status: string)

  const PendingMessage := "Aguardando confirmação de pagamento."
  const CompletedMessage := "Pedido concluído! Recebimento confirmado."
  const ProcessingMessage := "Seu pedido foi confirmado e está sendo preparado pelo lojista (embalagem)."
  const SellerMessage := "O lojista já despachou seu pedido (Entrega Própria) e está a caminho. Aguarde a chegada."
  const RequestedMessage := "O lojista preparou o pedido e solicitou a coleta."
  const OnRouteMessage := "Seu pedido está em rota de entrega! Consulte o lojista para detalhes do entregador."
  const ConfirmedMessage := "Entrega confirmada pelo código. Aguardando finalização no sistema."
  const InTransitMessage := "Seu pedido está em trânsito."

  predicate FixedStatus(status: string) {
    status == "Pending Payment" || status == "Completed" || status == "Processing"
  }

  /** The message for an order still being delivered: a seller's own delivery
      first, then the marketplace delivery's status. */
  function DeliveringMessage(d: Delivery): (m: string)
    ensures d.deliveryMethod == "Seller" ==> m == SellerMessage
    ensures d.deliveryMethod != "Seller" && d.status == "Requested" ==> m == RequestedMessage
    ensures d.deliveryMethod != "Seller" && (d.status == "Accepted" || d.status == "PickedUp" || d.status == "In Transit") ==> m == OnRouteMessage
    ensures d.deliveryMethod != "Seller" && d.status == "Delivered_Confirmed" ==> m == ConfirmedMessage
    ensures m == SellerMessage || m == RequestedMessage || m == OnRouteMessage || m == ConfirmedMessage || m == InTransitMessage
  {
    if d.deliveryMethod == "Seller" then SellerMessage
    else if d.status == "Requested" then RequestedMessage
    else if d.status == "Accepted" || d.status == "PickedUp" || d.status == "In Transit" then OnRouteMessage
    else if d.status == "Delivered_Confirmed" then ConfirmedMessage
    else InTransitMessage
  }

  /** `getBuyerTrackingMessage`: defined for every status; an unexpected one is echoed. */
  function BuyerTrackingMessage(orderStatus: string, d: Delivery): (m: string)
    ensures orderStatus == "Pending Payment" ==> m == PendingMessage
    ensures orderStatus == "Completed" ==> m == CompletedMessage
    ensures orderStatus == "Processing" ==> m == ProcessingMessage
    ensures orderStatus == "Delivering" ==> m == DeliveringMessage(d)
    ensures !FixedStatus(orderStatus) && orderStatus != "Delivering" ==> m == "Status: " + orderStatus
  {
    if orderStatus == "Pending Payment" then PendingMessage
    else if orderStatus == "Completed" then CompletedMessage
    else if orderStatus == "Processing" then ProcessingMessage
    else if orderStatus == "Delivering" then DeliveringMessage(d)
    else "Status: " + orderStatus
  }

  /** Outside delivery the delivery record does not matter. */
  lemma MessageIgnoresDeliveryOutsideDelivering(orderStatus: string, d1: Delivery, d2: Delivery)
    requires orderStatus != "Delivering"
    ensures BuyerTrackingMessage(orderStatus, d1) == BuyerTrackingMessage(orderStatus, d2)
  {
  }

  /** A seller's own delivery shows the same message whatever the delivery's status. */
  lemma SellerDeliveryIgnoresStatus(s1: string, s2: string)
    ensures BuyerTrackingMessage("Delivering", Delivery("Seller", s1)) == BuyerTrackingMessage("Delivering", Delivery("Seller", s2))
  {
  }
}
