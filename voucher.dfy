/** The voucher composer: the template text is pruned of the sections a
    booking does not show and its `{{...}}` placeholders are then replaced
    by the booking's fields; the PDF endpoints then hand the text to the
    renderer, the mail endpoints return it as the response body. */
module Voucher {
  import opened Wrappers
  import opened Text
  import opened GuestTables

  /** The request body. Every field is optional text except `TABLEDATA`; a
      flow reads only the fields its endpoint's model declares. */
  datatype Booking = Booking(
    NAME: Option<string>,
    CHECKIN: Option<string>,
    CHECKOUT: Option<string>,
    DAYOF_CHECKIN: Option<string>,
    DAYOF_CHECKOUT11: Option<string>,
    NO_OF_NIGHTS: Option<string>,
    CHECK_IN_TIME: Option<string>,
    CHECK_OUT_TIME: Option<string>,
    HOTELNAME: Option<string>,
    HOTELADDRESS: Option<string>,
    HOTELPHONE: Option<string>,
    ROOMCOUNT: Option<string>,
    CLIENT: Option<string>,
    GUESTCOUNT: Option<string>,
    ROOM_CHARGES: Option<string>,
    INCLUSIONS: Option<string>,
    SUBTOTAL: Option<string>,
    GST_VALUE: Option<string>,
    AMT_TO_BE_PAID: Option<string>,
    PAYMENTMODE: Option<string>,
    LOCATIONLINK: Option<string>,
    CANCELLATIONPOLICY: Option<string>,
    ADDON_POLICES: Option<string>,
    DEFAULT_POLICES: Option<string>,
    EMPNAME: Option<string>,
    EMPPHONE: Option<string>,
    EMPEMAIL: Option<string>,
    TABLEDATA: Option<TableData>,
    SHOWTRAIFF: Option<string>,
    CLIENT_GST: Option<string>,
    FILENAME: Option<string>,
    typeofbooking: Option<string>,
    Booking_Date: Option<string>,
    Booking_Id: Option<string>,
    Brid: Option<string>,
    GST_PRECENT: Option<string>,
    NEARBY: Option<string>
  )

  /** Python truthiness of an optional text: present and non-empty. */
  predicate Truthy(v: Option<string>) {
    v.Some? && v.value != ""
  }

  /** `str(v) if v is not None else ""`. */
  function OrEmpty(v: Option<string>): string {
    if v.Some? then v.value else ""
  }

  /** `v if v else fallback`. */
  function OrFallback(v: Option<string>, fallback: string): string {
    if Truthy(v) then v.value else fallback
  }

  // ---------------------------------------------------------------------
  // Literal sections of the templates
  // ---------------------------------------------------------------------

  /** The tariff table as the PDF endpoints and `booking_confirmation2`
      remove it. */
  const PdfTariffBlock :=
    "<table style=\"max-width:552px;width:100%;\"><tbod"
    + "y><tr><td>Room Charges</td><td style=\"text-align"
    + ": right\">{{roomcharges}}</td></tr><tr><td>Inclus"
    + "ion</td><td style=\"text-align: right\">{{inclusio"
    + "ns}}</td></tr><tr><td>Subtotal</td><td style=\"te"
    + "xt-align: right\">{{SUBTOTAL}}</td></tr><tr><td>T"
    + "ax(gst)</td><td style=\"text-align: right\">{{gst}"
    + "}</td></tr><tr><td><b>GRAND TOTAL</b></td><td st"
    + "yle=\"text-align: right\"><b>{{grandtotal}}</b></t"
    + "d></tr></tbody></table>"

  /** The tariff table of `voucherMail.html`, as `booking_confirmation1`
      removes it. */
  const MailTariffBlock :=
    "<table style=\"border-collapse:collapse; width:10"
    + "0%\" width=\"100%\"><tbody><tr><td style=\"padding:1"
    + "0px 0; word-wrap:break-word\">Room Charges</td><t"
    + "d style=\"padding:10px 0; word-wrap:break-word; t"
    + "ext-align:right\" align=\"right\">{{roomcharges}}</"
    + "td></tr><tr><td style=\"padding:10px 0; word-wrap"
    + ":break-word\">Inclusion IX</td><td style=\"padding"
    + ":10px 0; word-wrap:break-word; text-align:right\""
    + " align=\"right\">{{inclusions}}</td></tr><tr><td s"
    + "tyle=\"padding:10px 0; word-wrap:break-word\">Subt"
    + "otal</td><td style=\"padding:10px 0; word-wrap:br"
    + "eak-word; text-align:right\" align=\"right\">{{SUBT"
    + "OTAL}}</td></tr><tr><td style=\"padding:10px 0; w"
    + "ord-wrap:break-word\">Tax( {{GST_PRECENT}} )</td>"
    + "<td style=\"padding:10px 0; word-wrap:break-word;"
    + " text-align:right\" align=\"right\">{{gst}}</td></t"
    + "r><tr><td style=\"padding:10px 0; word-wrap:break"
    + "-word\"><b>GRAND TOTAL</b></td><td style=\"padding"
    + ":10px 0; word-wrap:break-word; text-align:right\""
    + " align=\"right\"><b>{{grandtotal}}</b></td></tr></"
    + "tbody></table>"

  /** The policies section. */
  const PoliciesBlock :=
    "<div class=\"info-section\"><h4>Policies:</h4><p>{"
    + "{ADDON_POLICES}} <br />{{DEFAULT_POLICES}}</p></"
    + "div>"

  /** The pay-at-hotel disclaimer. */
  const Disclaimer :=
    "<p style=\"font-size:x-small; margin-bottom:10px;"
    + " margin-top:0\"><small>*Any extra expenses/meals "
    + "apart from Room rent will be payable at the hote"
    + "l</small></p>"

  const GrandTotal := "GRAND TOTAL"
  const TotalToPay := "Total Amount to pay"

  // ---------------------------------------------------------------------
  // Section pruning
  // ---------------------------------------------------------------------

  /** The payment modes for which `SHOWTRAIFF == "No"` hides the tariff. */
  const TariffModes := ["Bill to Company", "Pay at Check-In", "Pay at check Out", "Prepaid"]

  /** The payment modes that are settled at the hotel or already paid. */
  const PrepayModes := ["Pay at Check-In", "Pay at check Out", "Prepaid"]

  predicate TariffHidden(b: Booking) {
    b.PAYMENTMODE.Some? && b.PAYMENTMODE.value in TariffModes && b.SHOWTRAIFF == Some("No")
  }

  predicate Prepay(b: Booking) {
    b.PAYMENTMODE.Some? && b.PAYMENTMODE.value in PrepayModes
  }

  predicate PoliciesShown(b: Booking) {
    Truthy(b.ADDON_POLICES) || Truthy(b.DEFAULT_POLICES)
  }

  /** The tariff step: delete every `block` when the tariff is hidden. */
  function PruneTariff(html: string, b: Booking, block: string): string {
    if TariffHidden(b) then ReplaceAll(html, block, "") else html
  }

  /** The prepay step of the test endpoints: relabel the grand total and
      delete the disclaimer. */
  function RewritePrepay(html: string, b: Booking): string {
    if Prepay(b) then ReplaceAll(ReplaceAll(html, GrandTotal, TotalToPay), Disclaimer, "") else html
  }

  /** The policies step of the PDF endpoints. */
  function PrunePolicies(html: string, b: Booking): string {
    if !PoliciesShown(b) then ReplaceAll(html, PoliciesBlock, "") else html
  }


  /** The tariff step changes the text exactly when the tariff is hidden
      and the block occurs; otherwise the template passes through. */
  lemma PruneTariffChanges(html: string, b: Booking, block: string)
    requires block != []
    ensures PruneTariff(html, b, block) != html <==> TariffHidden(b) && Contains(html, block)
    ensures PruneTariff(html, b, block) != html ==> |PruneTariff(html, b, block)| < |html|
  {
    if TariffHidden(b) {
      if Contains(html, block) {
        ReplaceAllShortens(html, block, "");
      } else {
        ReplaceAllAbsent(html, block, "");
      }
    }
  }

  /** The policies step changes the text exactly when neither policy field
      is truthy and the policies block occurs. */
  lemma PrunePoliciesChanges(html: string, b: Booking)
    ensures PrunePolicies(html, b) != html <==> !PoliciesShown(b) && Contains(html, PoliciesBlock)
    ensures PrunePolicies(html, b) != html ==> |PrunePolicies(html, b)| < |html|
  {
    if !PoliciesShown(b) {
      if Contains(html, PoliciesBlock) {
        ReplaceAllShortens(html, PoliciesBlock, "");
      } else {
        ReplaceAllAbsent(html, PoliciesBlock, "");
      }
    }
  }

  /** "Total Amount to pay" cannot re-form "GRAND TOTAL" with what
      surrounds it. */
  lemma GrandTotalNoOverlap()
    ensures NoOverlap(GrandTotal, TotalToPay)
  {
    AbsentByFirstChar(TotalToPay, GrandTotal);
    forall k: nat | 0 < k < |GrandTotal|
      ensures Suffix(TotalToPay, k) != Prefix(GrandTotal, k)
    {
      RelabelStartsApart(k);
    }
    forall k: nat | 0 < k < |GrandTotal|
      ensures Suffix(GrandTotal, k) != Prefix(TotalToPay, k)
    {
      RelabelEndsApart(k);
    }
  }

  /** No end of the new label starts with "G". */
  lemma RelabelStartsApart(k: nat)
    requires 0 < k < |GrandTotal|
    ensures Suffix(TotalToPay, k) != Prefix(GrandTotal, k)
  {
    var i := |TotalToPay| - k;
    assert Suffix(TotalToPay, k)[0] == TotalToPay[i];
    assert TotalToPay[i] != 'G';
    assert Prefix(GrandTotal, k)[0] == 'G';
  }

  /** No end of the old label reads "T" followed by "o". */
  lemma RelabelEndsApart(k: nat)
    requires 0 < k < |GrandTotal|
    ensures Suffix(GrandTotal, k) != Prefix(TotalToPay, k)
  {
    var i := |GrandTotal| - k;
    if k == 1 {
      assert Suffix(GrandTotal, k)[0] == GrandTotal[i] == 'L';
      assert Prefix(TotalToPay, k)[0] == 'T';
    } else {
      assert Suffix(GrandTotal, k)[1] == GrandTotal[i + 1];
      assert GrandTotal[i + 1] != 'o';
      assert Prefix(TotalToPay, k)[1] == 'o';
    }
  }

  /** The relabelling of the prepay step leaves no "GRAND TOTAL" behind,
      and a text that had one now shows "Total Amount to pay" where the
      first one stood. */
  lemma RelabelGrandTotal(html: string)
    ensures !Contains(ReplaceAll(html, GrandTotal, TotalToPay), GrandTotal)
    ensures Find(html, GrandTotal).Some? ==>
      OccursAt(ReplaceAll(html, GrandTotal, TotalToPay), TotalToPay, Find(html, GrandTotal).value)
  {
    GrandTotalNoOverlap();
    ReplaceAllRemovesPattern(html, GrandTotal, TotalToPay);
    if Find(html, GrandTotal).Some? {
      var p := Find(html, GrandTotal).value;
      ReplaceAllAtFirst(html, GrandTotal, TotalToPay, p);
      var r := ReplaceAll(html, GrandTotal, TotalToPay);
      assert r[p..p + |TotalToPay|] == TotalToPay;
    }
  }

  /** Only the three prepay modes rewrite the totals; "Bill to Company" (the
      fourth mode that can hide the tariff) and every other mode leave the
      text as it is, and a prepay mode always satisfies the mode test of the
      tariff step. */
  lemma RewritePrepayModes(html: string, b: Booking)
    ensures !Prepay(b) ==> RewritePrepay(html, b) == html
    ensures b.PAYMENTMODE == Some("Bill to Company") ==> RewritePrepay(html, b) == html
    ensures Prepay(b) && b.SHOWTRAIFF == Some("No") ==> TariffHidden(b)
  {
    if b.PAYMENTMODE == Some("Bill to Company") {
      assert "Bill to Company" != PrepayModes[0] && "Bill to Company" != PrepayModes[1];
      assert "Bill to Company" != PrepayModes[2];
    }
    if Prepay(b) {
      assert b.PAYMENTMODE.value == TariffModes[1] || b.PAYMENTMODE.value == TariffModes[2]
        || b.PAYMENTMODE.value == TariffModes[3];
    }
  }

  /** In a prepay mode the second rewrite deletes the extra-expenses
      disclaimer from the relabelled text: the text changes exactly when
      the disclaimer occurs, and then becomes shorter. */
  lemma PrepayDeletesDisclaimer(html: string, b: Booking)
    ensures Prepay(b) ==>
      var t := ReplaceAll(html, GrandTotal, TotalToPay);
      && (RewritePrepay(html, b) != t <==> Contains(t, Disclaimer))
      && (RewritePrepay(html, b) != t ==> |RewritePrepay(html, b)| < |t|)
  {
    var t := ReplaceAll(html, GrandTotal, TotalToPay);
    if Contains(t, Disclaimer) {
      ReplaceAllShortens(t, Disclaimer, "");
    } else {
      ReplaceAllAbsent(t, Disclaimer, "");
    }
  }

  // ---------------------------------------------------------------------
  // Placeholder substitution
  // ---------------------------------------------------------------------

  /** Placeholder and value, in the `replacements` dictionary's order. */
  type Pairs = seq<(string, string)>

  /** The PDF path: `for placeholder, value in replacements.items():
      html = html.replace(placeholder, value)`. */
  function Substitute(html: string, pairs: Pairs): string
    decreases |pairs|
  {
    if pairs == [] then html
    else Substitute(ReplaceAll(html, pairs[0].0, pairs[0].1), pairs[1..])
  }

  /** The mail path: the same loop under `if value:`. */
  function SubstituteTruthy(html: string, pairs: Pairs): string
    decreases |pairs|
  {
    if pairs == [] then html
    else if pairs[0].1 == "" then SubstituteTruthy(html, pairs[1..])
    else SubstituteTruthy(ReplaceAll(html, pairs[0].0, pairs[0].1), pairs[1..])
  }

  /** The pairs that the mail path applies. */
  function TruthyPairs(pairs: Pairs): (r: Pairs)
    ensures forall k :: 0 <= k < |r| ==> r[k].1 != "" && r[k] in pairs
    ensures forall k :: 0 <= k < |pairs| && pairs[k].1 != "" ==> pairs[k] in r
    decreases |pairs|
  {
    if pairs == [] then []
    else if pairs[0].1 == "" then TruthyPairs(pairs[1..])
    else [pairs[0]] + TruthyPairs(pairs[1..])
  }

  /** Substituting a list is substituting its two halves in turn. */
  lemma {:induction false} SubstituteAppend(html: string, p: Pairs, q: Pairs)
    ensures Substitute(html, p + q) == Substitute(Substitute(html, p), q)
    decreases |p|
  {
    if p == [] {
      assert p + q == q;
    } else {
      assert (p + q)[0] == p[0] && (p + q)[1..] == p[1..] + q;
      SubstituteAppend(ReplaceAll(html, p[0].0, p[0].1), p[1..], q);
    }
  }

  lemma {:induction false} TruthyPairsAppend(p: Pairs, q: Pairs)
    ensures TruthyPairs(p + q) == TruthyPairs(p) + TruthyPairs(q)
    decreases |p|
  {
    if p == [] {
      assert p + q == q;
    } else {
      assert (p + q)[0] == p[0] && (p + q)[1..] == p[1..] + q;
      TruthyPairsAppend(p[1..], q);
    }
  }

  /** The mail path is the PDF path run on the pairs with truthy values. */
  lemma {:induction false} SubstituteTruthyFilters(html: string, pairs: Pairs)
    ensures SubstituteTruthy(html, pairs) == Substitute(html, TruthyPairs(pairs))
    decreases |pairs|
  {
    if pairs != [] {
      if pairs[0].1 == "" {
        SubstituteTruthyFilters(html, pairs[1..]);
      } else {
        SubstituteTruthyFilters(ReplaceAll(html, pairs[0].0, pairs[0].1), pairs[1..]);
      }
    }
  }

  /** On the mail path a pair with an empty value might as well be absent:
      its placeholder is left in the text as it stands. */
  lemma SkippedPair(html: string, p: Pairs, marker: string, q: Pairs)
    ensures SubstituteTruthy(html, p + [(marker, "")] + q) == SubstituteTruthy(html, p + q)
  {
    var skipped := [(marker, "")];
    TruthyPairsAppend(p + skipped, q);
    TruthyPairsAppend(p, skipped);
    TruthyPairsAppend(p, q);
    assert TruthyPairs(skipped) == [];
    assert TruthyPairs(p + skipped + q) == TruthyPairs(p + q);
    SubstituteTruthyFilters(html, p + skipped + q);
    SubstituteTruthyFilters(html, p + q);
  }

  /** With every value falsy the mail path returns the template unchanged,
      placeholders and all. */
  lemma {:induction false} SubstituteTruthyAllFalsy(html: string, pairs: Pairs)
    requires forall k :: 0 <= k < |pairs| ==> pairs[k].1 == ""
    ensures SubstituteTruthy(html, pairs) == html
    decreases |pairs|
  {
    if pairs != [] {
      assert pairs[0].1 == "";
      assert forall k :: 0 <= k < |pairs[1..]| ==> pairs[1..][k] == pairs[k + 1];
      SubstituteTruthyAllFalsy(html, pairs[1..]);
    }
  }

  /** A text holding none of the placeholders comes out of either path
      unchanged. */
  lemma {:induction false} SubstituteNoPlaceholders(html: string, pairs: Pairs)
    requires forall k :: 0 <= k < |pairs| ==> pairs[k].0 != [] && !Contains(html, pairs[k].0)
    ensures Substitute(html, pairs) == html
    ensures SubstituteTruthy(html, pairs) == html
    decreases |pairs|
  {
    if pairs != [] {
      ReplaceAllAbsent(html, pairs[0].0, pairs[0].1);
      assert forall k :: 0 <= k < |pairs[1..]| ==> pairs[1..][k] == pairs[k + 1];
      SubstituteNoPlaceholders(html, pairs[1..]);
    }
  }

  /** `html = html.replace(placeholder, value)` for each pair in order. */
  method ApplyReplacements(html: string, pairs: Pairs) returns (r: string)
    ensures r == Substitute(html, pairs)
  {
    r := html;
    var i := 0;
    while i < |pairs|
      invariant i <= |pairs|
      invariant Substitute(r, pairs[i..]) == Substitute(html, pairs)
    {
      var (placeholder, value) := pairs[i];
      assert pairs[i..][1..] == pairs[i + 1..];
      r := ReplaceAll(r, placeholder, value);
      i := i + 1;
    }
  }

  /** The same loop, applying only the pairs whose value is truthy. */
  method ApplyTruthyReplacements(html: string, pairs: Pairs) returns (r: string)
    ensures r == SubstituteTruthy(html, pairs)
  {
    r := html;
    var i := 0;
    while i < |pairs|
      invariant i <= |pairs|
      invariant SubstituteTruthy(r, pairs[i..]) == SubstituteTruthy(html, pairs)
    {
      var (placeholder, value) := pairs[i];
      assert pairs[i..][1..] == pairs[i + 1..];
      if value != "" {
        r := ReplaceAll(r, placeholder, value);
      }
      i := i + 1;
    }
  }

  /** The placeholders of `booking_confirmation` and of the test PDF
      endpoint; `fallback` is what a falsy `HOTELPHONE` or `Booking_Id`
      becomes (`""` in the former, `" "` in the latter). */
  function PdfPairs(b: Booking, table: string, fallback: string): Pairs {
    [("{{ name }}", OrEmpty(b.NAME)),
     ("{{checkindate}}", OrEmpty(b.CHECKIN)),
     ("{{checkoutdate}}", OrEmpty(b.CHECKOUT)),
     ("{{dayofcheckin}}", OrEmpty(b.DAYOF_CHECKIN)),
     ("{{dayofcheckout}}", OrEmpty(b.DAYOF_CHECKOUT11)),
     ("{{no_of_night}}", OrEmpty(b.NO_OF_NIGHTS)),
     ("{{checkintime}}", OrEmpty(b.CHECK_IN_TIME)),
     ("{{checkouttime}}", OrEmpty(b.CHECK_OUT_TIME)),
     ("{{hotelname}}", OrEmpty(b.HOTELNAME)),
     ("{{hoteladdress}}", OrEmpty(b.HOTELADDRESS)),
     ("{{hotelphone}}", OrFallback(b.HOTELPHONE, fallback)),
     ("{{noofrooms}}", OrEmpty(b.ROOMCOUNT)),
     ("{{noofguest}}", OrEmpty(b.GUESTCOUNT)),
     ("{{roomcharges}}", OrEmpty(b.ROOM_CHARGES)),
     ("{{inclusions}}", OrEmpty(b.INCLUSIONS)),
     ("{{gst}}", OrEmpty(b.GST_VALUE)),
     ("{{SUBTOTAL}}", OrEmpty(b.SUBTOTAL)),
     ("{{grandtotal}}", OrEmpty(b.AMT_TO_BE_PAID)),
     ("{{PAYMENTMODE}}", OrEmpty(b.PAYMENTMODE)),
     ("{{ADDON_POLICES}}", OrEmpty(b.ADDON_POLICES)),
     ("{{DEFAULT_POLICES}}", OrEmpty(b.DEFAULT_POLICES)),
     ("{{CANCELLATIONPOLICY}}", OrEmpty(b.CANCELLATIONPOLICY)),
     ("{{GUESTTABLE}}", table),
     ("{{EMPNAME}}", OrEmpty(b.EMPNAME)),
     ("{{EMPPHONE}}", OrEmpty(b.EMPPHONE)),
     ("{{EMPEMAIL}}", OrEmpty(b.EMPEMAIL)),
     ("{{location}}", OrEmpty(b.LOCATIONLINK)),
     ("{{client}}", OrEmpty(b.CLIENT)),
     ("{{clientgst}}", OrEmpty(b.CLIENT_GST)),
     ("{{booking_date}}", OrEmpty(b.Booking_Date)),
     ("{{booking_id}}", OrFallback(b.Booking_Id, fallback)),
     ("{{Brid}}", OrEmpty(b.Brid)),
     ("{{gstpre}}", OrEmpty(b.GST_PRECENT)),
     ("{{NEARBY}}", OrEmpty(b.NEARBY))]
  }

  /** The placeholders of the two mail endpoints, a missing value read as
      `""` (falsy either way); `phoneFallback` is what a falsy `HOTELPHONE`
      becomes (`" "` in `booking_confirmation1`, `""` in
      `booking_confirmation2`). */
  function MailPairs(b: Booking, table: string, phoneFallback: string): Pairs {
    [("{{ name }}", OrEmpty(b.NAME)),
     ("{{checkindate}}", OrEmpty(b.CHECKIN)),
     ("{{checkoutdate}}", OrEmpty(b.CHECKOUT)),
     ("{{dayofcheckin}}", OrEmpty(b.DAYOF_CHECKIN)),
     ("{{dayofcheckout}}", OrEmpty(b.DAYOF_CHECKOUT11)),
     ("{{no_of_night}}", OrEmpty(b.NO_OF_NIGHTS)),
     ("{{checkintime}}", OrEmpty(b.CHECK_IN_TIME)),
     ("{{checkouttime}}", OrEmpty(b.CHECK_OUT_TIME)),
     ("{{hotelname}}", OrEmpty(b.HOTELNAME)),
     ("{{hoteladdress}}", OrEmpty(b.HOTELADDRESS)),
     ("{{hotelphone}}", OrFallback(b.HOTELPHONE, phoneFallback)),
     ("{{noofrooms}}", OrEmpty(b.ROOMCOUNT)),
     ("{{noofguest}}", OrEmpty(b.GUESTCOUNT)),
     ("{{roomcharges}}", OrEmpty(b.ROOM_CHARGES)),
     ("{{inclusions}}", OrEmpty(b.INCLUSIONS)),
     ("{{gst}}", OrEmpty(b.GST_VALUE)),
     ("{{SUBTOTAL}}", OrEmpty(b.SUBTOTAL)),
     ("{{grandtotal}}", OrEmpty(b.AMT_TO_BE_PAID)),
     ("{{PAYMENTMODE}}", OrEmpty(b.PAYMENTMODE)),
     ("{{ADDON_POLICES}}", OrEmpty(b.ADDON_POLICES)),
     ("{{DEFAULT_POLICES}}", OrEmpty(b.DEFAULT_POLICES)),
     ("{{CANCELLATIONPOLICY}}", OrEmpty(b.CANCELLATIONPOLICY)),
     ("{{EMPNAME}}", OrEmpty(b.EMPNAME)),
     ("{{EMPPHONE}}", OrEmpty(b.EMPPHONE)),
     ("{{EMPEMAIL}}", OrEmpty(b.EMPEMAIL)),
     ("{{location}}", OrEmpty(b.LOCATIONLINK)),
     ("{{GUESTTABLE}}", table),
     ("{{client}}", OrEmpty(b.CLIENT)),
     ("{{clientgst}}", OrEmpty(b.CLIENT_GST)),
     ("{{booking_date}}", OrEmpty(b.Booking_Date)),
     ("{{booking_id}}", OrFallback(b.Booking_Id, " ")),
     ("{{BRID}}", OrEmpty(b.Brid)),
     ("{{GST_PRECENT}}", OrEmpty(b.GST_PRECENT))]
  }

  // ---------------------------------------------------------------------
  // Selectors
  // ---------------------------------------------------------------------

  /** The template of the test PDF endpoint. */
  function PdfTemplateName(typeofbooking: Option<string>): string {
    if typeofbooking == Some("Bulk") then "Bulkvoucher.html" else "voucher.html"
  }

  /** The template of `booking_confirmation2`. */
  function MailTemplateName(typeofbooking: Option<string>): string {
    if typeofbooking == Some("Bulk") then "BulkVoucherMail.html" else "voucherMail.html"
  }

  /** The name of the PDF: `FILENAME + ".pdf"` if `FILENAME` is truthy. */
  function FileName(filename: Option<string>): (r: string)
    ensures |r| > 4 && r[|r| - 4..] == ".pdf"
    ensures Truthy(filename) ==> r[..|r| - 4] == filename.value
    ensures !Truthy(filename) ==> r == "booking_confirmation.pdf"
  {
    if Truthy(filename) then filename.value + ".pdf" else "booking_confirmation.pdf"
  }

  /** The `Content-Disposition` header of a PDF response. */
  function Disposition(filename: string): string {
    "inline; filename=" + filename
  }

  // ---------------------------------------------------------------------
  // The four endpoints
  // ---------------------------------------------------------------------

  /** What a PDF endpoint hands to the renderer, and its header. */
  datatype PdfResponse = PdfResponse(html: string, disposition: string)

  /** The template store: file name to contents. */
  type Templates = map<string, string>

  /** The text `booking_confirmation` renders. */
  function PdfHtml(template: string, b: Booking, table: string): string {
    Substitute(PrunePolicies(PruneTariff(template, b, PdfTariffBlock), b), PdfPairs(b, table, ""))
  }

  /** The text the test PDF endpoint renders. */
  function PdfTestHtml(template: string, b: Booking, table: string): string {
    Substitute(PrunePolicies(RewritePrepay(PruneTariff(template, b, PdfTariffBlock), b), b), PdfPairs(b, table, " "))
  }

  /** The body `booking_confirmation1` returns. */
  function MailHtml(template: string, b: Booking, table: string): string {
    SubstituteTruthy(PruneTariff(template, b, MailTariffBlock), MailPairs(b, table, " "))
  }

  /** The body `booking_confirmation2` returns. */
  function MailTestHtml(template: string, b: Booking, table: string): string {
    SubstituteTruthy(RewritePrepay(PruneTariff(template, b, PdfTariffBlock), b), MailPairs(b, table, ""))
  }

  /** What `booking_confirmation` answers once its template is read. */
  function PdfResult(b: Booking, template: string): Result<PdfResponse> {
    var table :- GuestTable(b.TABLEDATA);
    Ok(PdfResponse(PdfHtml(template, b, table), Disposition(FileName(b.FILENAME))))
  }

  /** What `booking_confirmation1` answers once its template is read. */
  function MailResult(b: Booking, template: string): Result<string> {
    var table :- MailGuestTable(b.TABLEDATA);
    Ok(MailHtml(template, b, table))
  }

  /** What the test PDF endpoint answers once its template is read. */
  function PdfTestResult(b: Booking, template: string): Result<PdfResponse> {
    var table :- GuestTable1(b.TABLEDATA, b.typeofbooking);
    Ok(PdfResponse(PdfTestHtml(template, b, table), Disposition(FileName(b.FILENAME))))
  }

  /** What `booking_confirmation2` answers once its template is read. */
  function MailTestResult(b: Booking, template: string): Result<string> {
    var table :- MailTestGuestTable(b.TABLEDATA, b.typeofbooking);
    Ok(MailTestHtml(template, b, table))
  }

  /** Without `TABLEDATA` the PDF endpoints render an empty guest table. */
  lemma PdfWithoutTableData(b: Booking, template: string)
    requires b.TABLEDATA.None?
    ensures GuestTable(b.TABLEDATA) == Ok("") && GuestTable1(b.TABLEDATA, b.typeofbooking) == Ok("")
    ensures PdfResult(b, template).Ok? && PdfTestResult(b, template).Ok?
  {
    EmptyGuestTables(b.TABLEDATA, b.typeofbooking);
  }

  /** Without `TABLEDATA` both mail endpoints fail on
      `TABLEDATA["GUESTNAME"]`. */
  lemma MailWithoutTableData(b: Booking, template: string)
    requires b.TABLEDATA.None?
    ensures MailResult(b, template) == Err(NoTableData)
    ensures MailTestResult(b, template) == Err(NoTableData)
  {
    MailGuestTableOk(b.TABLEDATA, b.typeofbooking);
  }

  /** `POST /booking-confirmation`. */
  method BookingConfirmation(b: Booking, templates: Templates) returns (r: Result<PdfResponse>)
    ensures "voucher.html" !in templates ==> r == Err(TemplateNotFound("voucher.html"))
    ensures "voucher.html" in templates ==> r == PdfResult(b, templates["voucher.html"])
  {
    if "voucher.html" !in templates {
      return Err(TemplateNotFound("voucher.html"));
    }
    var html := templates["voucher.html"];
    var table :- GenerateGuestTable(b.TABLEDATA);
    var replacements := PdfPairs(b, table, "");
    if TariffHidden(b) {
      html := ReplaceAll(html, PdfTariffBlock, "");
    }
    if !PoliciesShown(b) {
      html := ReplaceAll(html, PoliciesBlock, "");
    }
    html := ApplyReplacements(html, replacements);
    r := Ok(PdfResponse(html, Disposition(FileName(b.FILENAME))));
  }

  /** `POST /booking-confirmation-mail`. */
  method BookingConfirmationMail(b: Booking, templates: Templates) returns (r: Result<string>)
    ensures "voucherMail.html" !in templates ==> r == Err(TemplateNotFound("voucherMail.html"))
    ensures "voucherMail.html" in templates ==> r == MailResult(b, templates["voucherMail.html"])
  {
    if "voucherMail.html" !in templates {
      return Err(TemplateNotFound("voucherMail.html"));
    }
    var html := templates["voucherMail.html"];
    var table :- BuildMailTable(b.TABLEDATA);
    var replacements := MailPairs(b, table, " ");
    if TariffHidden(b) {
      html := ReplaceAll(html, MailTariffBlock, "");
    }
    html := ApplyTruthyReplacements(html, replacements);
    r := Ok(html);
  }

  /** `POST /booking-confirmation-test`. */
  method BookingConfirmationTest(b: Booking, templates: Templates) returns (r: Result<PdfResponse>)
    ensures var name := PdfTemplateName(b.typeofbooking);
      && (name !in templates ==> r == Err(TemplateNotFound(name)))
      && (name in templates ==> r == PdfTestResult(b, templates[name]))
  {
    var name := PdfTemplateName(b.typeofbooking);
    if name !in templates {
      return Err(TemplateNotFound(name));
    }
    var html := templates[name];
    var table :- GenerateGuestTable1(b.TABLEDATA, b.typeofbooking);
    var replacements := PdfPairs(b, table, " ");
    if TariffHidden(b) {
      html := ReplaceAll(html, PdfTariffBlock, "");
    }
    if Prepay(b) {
      html := ReplaceAll(html, GrandTotal, TotalToPay);
      html := ReplaceAll(html, Disclaimer, "");
    }
    if !PoliciesShown(b) {
      html := ReplaceAll(html, PoliciesBlock, "");
    }
    html := ApplyReplacements(html, replacements);
    r := Ok(PdfResponse(html, Disposition(FileName(b.FILENAME))));
  }

  /** `POST /booking-confirmation-mail-test`. */
  method BookingConfirmationMailTest(b: Booking, templates: Templates) returns (r: Result<string>)
    ensures var name := MailTemplateName(b.typeofbooking);
      && (name !in templates ==> r == Err(TemplateNotFound(name)))
      && (name in templates ==> r == MailTestResult(b, templates[name]))
  {
    var name := MailTemplateName(b.typeofbooking);
    if name !in templates {
      return Err(TemplateNotFound(name));
    }
    var html := templates[name];
    var table :- BuildMailTestTable(b.TABLEDATA, b.typeofbooking);
    var replacements := MailPairs(b, table, "");
    if TariffHidden(b) {
      html := ReplaceAll(html, PdfTariffBlock, "");
    }
    if Prepay(b) {
      html := ReplaceAll(html, GrandTotal, TotalToPay);
      html := ReplaceAll(html, Disclaimer, "");
    }
    html := ApplyTruthyReplacements(html, replacements);
    r := Ok(html);
  }
}
