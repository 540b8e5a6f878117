/**
 * The naming rules of the PDF export and the WhatsApp hand-off: the file name a
 * PDF is saved under, the phone number WhatsApp is opened with, and which of the
 * two share paths is taken. Rendering and the browser calls are left to the
 * caller; what they report is passed in as `ShareEnv`.
 */
module Pdf {
  import opened Wrappers
  import opened Lists
  import opened Strings
  import opened InvoiceTypes

  // ---------------------------------------------------------------------------
  // The invoice-number part

  /**
   * `invoice_number?.toString().padStart(4, '0') || 'draft'`: the padded number is
   * never empty, so the fallback is taken exactly when there is no number.
   */
  function InvoiceNumberPart(number: Option<nat>): (r: string)
    ensures number.None? ==> r == "draft"
    ensures number.Some? ==> |r| >= 4 && AllDigits(r) && DecimalValue(r) == number.value
  {
    match number
    case None => "draft"
    case Some(n) =>
      var padded := PadStart(Decimal(n), 4, '0');
      PaddedValue(n);
      padded
  }

  /** Zero-padding the decimal form of `n` keeps its digits and its value. */
  lemma PaddedValue(n: nat)
    ensures AllDigits(PadStart(Decimal(n), 4, '0'))
    ensures DecimalValue(PadStart(Decimal(n), 4, '0')) == n
  {
    var s := Decimal(n);
    DecimalRoundTrip(n);
    if |s| < 4 {
      LeadingZerosValue(4 - |s|, s);
    }
  }

  // ---------------------------------------------------------------------------
  // The customer-name part

  /** `[a-zA-Z0-9\s]`: the characters the first replacement keeps. */
  predicate IsNameChar(c: char)
  {
    IsAlnum(c) || IsSpace(c)
  }

  /** The characters a sanitised name is made of. */
  predicate IsFileNameChar(c: char)
  {
    IsAlnum(c) || c == '_'
  }

  /** `replace(/\s+/g, '_')`: each maximal run of white space becomes one `_`. */
  function CollapseSpaces(s: string): (r: string)
    decreases |s|
  {
    if s == [] then []
    else if IsSpace(s[0]) then "_" + CollapseSpaces(TrimStart(s))
    else [s[0]] + CollapseSpaces(s[1..])
  }

  /**
   * The sanitised customer name: letters, digits and white space kept, every
   * white-space run replaced by `_`, then cut to 30 characters.
   */
  function SanitiseName(name: string): string
  {
    Take(CollapseSpaces(Filter(name, IsNameChar)), 30)
  }

  /** Collapsing a string of name characters yields file-name characters, never two `_` in a row. */
  lemma {:induction false} CollapseShape(s: string)
    requires forall i :: 0 <= i < |s| ==> IsNameChar(s[i])
    ensures forall i :: 0 <= i < |CollapseSpaces(s)| ==> IsFileNameChar(CollapseSpaces(s)[i])
    ensures forall i :: 0 <= i < |CollapseSpaces(s)| - 1 ==>
              !(CollapseSpaces(s)[i] == '_' && CollapseSpaces(s)[i + 1] == '_')
    ensures CollapseSpaces(s) != [] && CollapseSpaces(s)[0] == '_' <==> s != [] && IsSpace(s[0])
  {
    if s != [] {
      if IsSpace(s[0]) {
        var t := TrimStart(s);
        CollapseShape(t);
        assert CollapseSpaces(s) == "_" + CollapseSpaces(t);
      } else {
        CollapseShape(s[1..]);
        assert CollapseSpaces(s) == [s[0]] + CollapseSpaces(s[1..]);
      }
    }
  }

  /** Collapsing white space keeps the letters and digits, in order. */
  lemma {:induction false} CollapseKeepsAlnum(s: string)
    ensures Filter(CollapseSpaces(s), IsAlnum) == Filter(s, IsAlnum)
    decreases |s|
  {
    if s != [] {
      if IsSpace(s[0]) {
        var t := TrimStart(s);
        var k := |s| - |t|;
        CollapseKeepsAlnum(t);
        FilterConcat("_", CollapseSpaces(t), IsAlnum);
        assert s == s[..k] + t;
        FilterConcat(s[..k], t, IsAlnum);
        NoAlnum(s[..k]);
        NoAlnum("_");
      } else {
        CollapseKeepsAlnum(s[1..]);
        FilterConcat([s[0]], CollapseSpaces(s[1..]), IsAlnum);
        FilterConcat([s[0]], s[1..], IsAlnum);
        assert s == [s[0]] + s[1..];
      }
    }
  }

  /** A string without letters or digits has none to keep. */
  lemma {:induction false} NoAlnum(s: string)
    requires forall i :: 0 <= i < |s| ==> !IsAlnum(s[i])
    ensures Filter(s, IsAlnum) == []
  {
    if s != [] {
      NoAlnum(s[1..]);
    }
  }

  /** Filtering a prefix gives a prefix of the filtered whole. */
  lemma FilterPrefix(s: string, n: nat, p: char -> bool)
    requires n <= |s|
    ensures Filter(s[..n], p) <= Filter(s, p)
  {
    assert s == s[..n] + s[n..];
    FilterConcat(s[..n], s[n..], p);
  }

  /**
   * A sanitised name has at most 30 characters, all letters, digits or `_`, no two
   * `_` in a row, and its letters and digits are, in order, a prefix of those of
   * the customer name (all of them when the collapsed name fits in 30 characters).
   */
  lemma SanitisedName(name: string)
    ensures |SanitiseName(name)| <= 30
    ensures forall i :: 0 <= i < |SanitiseName(name)| ==> IsFileNameChar(SanitiseName(name)[i])
    ensures forall i :: 0 <= i < |SanitiseName(name)| - 1 ==>
              !(SanitiseName(name)[i] == '_' && SanitiseName(name)[i + 1] == '_')
    ensures Filter(SanitiseName(name), IsAlnum) <= Filter(name, IsAlnum)
    ensures |CollapseSpaces(Filter(name, IsNameChar))| <= 30 ==>
              Filter(SanitiseName(name), IsAlnum) == Filter(name, IsAlnum)
  {
    SanitisedShape(name);
    SanitisedLetters(name);
  }

  /** The characters of a sanitised name, and no `__` among them. */
  lemma SanitisedShape(name: string)
    ensures forall i :: 0 <= i < |SanitiseName(name)| ==> IsFileNameChar(SanitiseName(name)[i])
    ensures forall i :: 0 <= i < |SanitiseName(name)| - 1 ==>
              !(SanitiseName(name)[i] == '_' && SanitiseName(name)[i + 1] == '_')
  {
    var kept := Filter(name, IsNameChar);
    FilterSatisfies(name, IsNameChar);
    CollapseShape(kept);
    var c, r := CollapseSpaces(kept), SanitiseName(name);
    assert forall i :: 0 <= i < |r| ==> r[i] == c[i];
  }

  /** The letters and digits of a sanitised name are a prefix of the customer name's. */
  lemma SanitisedLetters(name: string)
    ensures Filter(SanitiseName(name), IsAlnum) <= Filter(name, IsAlnum)
    ensures |CollapseSpaces(Filter(name, IsNameChar))| <= 30 ==>
              Filter(SanitiseName(name), IsAlnum) == Filter(name, IsAlnum)
  {
    var kept := Filter(name, IsNameChar);
    var c := CollapseSpaces(kept);
    CollapseKeepsAlnum(kept);
    FilterCommutes(name, IsNameChar, IsAlnum);
    FilterSatisfies(name, IsAlnum);
    FilterKeepsAll(Filter(name, IsAlnum), IsNameChar);
    FilterPrefix(c, |SanitiseName(name)|, IsAlnum);
    assert SanitiseName(name) == c[..|SanitiseName(name)|];
  }

  // ---------------------------------------------------------------------------
  // The file name

  /**
   * `${customerName}_invoice_${invoiceNumber}.pdf`, derived the same way by
   * `generatePDF` and `generatePDFBlob`.
   */
  function PdfFilename(invoice: Invoice): string
  {
    SanitiseName(invoice.data.customerName) + "_invoice_" + InvoiceNumberPart(invoice.invoiceNumber) + ".pdf"
  }

  /** The text after the last `_` (all of it when there is none). */
  function AfterLastUnderscore(s: string): (r: string)
    ensures |r| <= |s| && r == s[|s| - |r|..]
    ensures forall i :: 0 <= i < |r| ==> r[i] != '_'
  {
    if s == [] then []
    else if s[|s| - 1] == '_' then []
    else AfterLastUnderscore(s[..|s| - 1]) + [s[|s| - 1]]
  }

  /** The invoice-number part of a file name: what stands between its last `_` and `.pdf`. */
  function NumberPartOf(filename: string): string
  {
    if |filename| >= 4 then AfterLastUnderscore(filename[..|filename| - 4]) else ""
  }

  /** The invoice number a file name stands for: none for `draft`, otherwise the decimal value. */
  function ParseNumberPart(part: string): Option<nat>
  {
    if part == "draft" || !AllDigits(part) then None else Some(DecimalValue(part))
  }

  /** A piece without `_` that follows a `_` is what comes after the last `_`. */
  lemma {:induction false} AfterLastUnderscoreOf(a: string, b: string)
    requires forall i :: 0 <= i < |b| ==> b[i] != '_'
    ensures AfterLastUnderscore(a + "_" + b) == b
    decreases |b|
  {
    var s := a + "_" + b;
    if b == [] {
      assert s[|s| - 1] == '_';
    } else {
      var b' := b[..|b| - 1];
      assert s[..|s| - 1] == a + "_" + b';
      AfterLastUnderscoreOf(a, b');
      assert b == b' + [b[|b| - 1]];
    }
  }

  /**
   * The file name gives back the invoice number it was made from: whatever the
   * customer name, the part after the last `_` is the number part, and reading
   * it yields the invoice's number (none for a draft).
   */
  lemma FilenameNamesInvoice(invoice: Invoice)
    ensures NumberPartOf(PdfFilename(invoice)) == InvoiceNumberPart(invoice.invoiceNumber)
    ensures ParseNumberPart(NumberPartOf(PdfFilename(invoice))) == invoice.invoiceNumber
  {
    var name := SanitiseName(invoice.data.customerName);
    var part := InvoiceNumberPart(invoice.invoiceNumber);
    var f := PdfFilename(invoice);
    assert f == (name + "_invoice") + "_" + part + ".pdf";
    assert f[..|f| - 4] == (name + "_invoice") + "_" + part;
    NumberPartRoundTrip(invoice.invoiceNumber);
    AfterLastUnderscoreOf(name + "_invoice", part);
  }

  /** The number part has no `_` and reads back as the number it was made from. */
  lemma NumberPartRoundTrip(number: Option<nat>)
    ensures forall i :: 0 <= i < |InvoiceNumberPart(number)| ==> InvoiceNumberPart(number)[i] != '_'
    ensures ParseNumberPart(InvoiceNumberPart(number)) == number
  {
    var part := InvoiceNumberPart(number);
    if number.Some? {
      assert IsDigit(part[0]) && part[0] != "draft"[0];
    }
  }

  /** A piece without white space is left as it is. */
  lemma {:induction false} CollapseWord(w: string)
    requires forall i :: 0 <= i < |w| ==> !IsSpace(w[i])
    ensures CollapseSpaces(w) == w
  {
    if w != [] {
      CollapseWord(w[1..]);
      assert w == [w[0]] + w[1..];
    }
  }

  /** A leading piece without white space passes through unchanged. */
  lemma {:induction false} CollapseWordThen(a: string, t: string)
    requires forall i :: 0 <= i < |a| ==> !IsSpace(a[i])
    ensures CollapseSpaces(a + t) == a + CollapseSpaces(t)
    decreases |a|
  {
    if a == [] {
      assert a + t == t;
    } else {
      var s := a + t;
      assert s[1..] == a[1..] + t;
      CollapseWordThen(a[1..], t);
      assert CollapseSpaces(s) == [a[0]] + CollapseSpaces(s[1..]);
      assert a == [a[0]] + a[1..];
    }
  }

  /** A leading white-space run before a word becomes one `_`. */
  lemma CollapseRun(run: string, b: string)
    requires run != [] && AllSpace(run)
    requires b != [] && !IsSpace(b[0])
    ensures CollapseSpaces(run + b) == "_" + CollapseSpaces(b)
  {
    assert (run + b)[0] == run[0];
    RunThenWord(run, b);
  }

  /** Trimming a white-space run off the front of a word leaves the word. */
  lemma {:induction false} RunThenWord(run: string, b: string)
    requires AllSpace(run)
    requires b != [] && !IsSpace(b[0])
    ensures TrimStart(run + b) == b
  {
    if run != [] {
      assert (run + b)[1..] == run[1..] + b;
      RunThenWord(run[1..], b);
    } else {
      assert run + b == b;
    }
  }

  /** The name of invoice number 7 for "Rohit @ Kumar!!". */
  lemma FilenameExample()
    ensures PdfFilename(Invoice(None, Some(7), None, None, EmptyFormData().(customerName := "Rohit" + " @ " + "Kumar" + "!!")))
            == "Rohit" + "_" + "Kumar" + "_invoice_" + "0007" + ".pdf"
  {
    KeptNameChars("Rohit", "Kumar");
    CollapsedExample("Rohit", "Kumar");
    PaddedSeven();
  }

  /** A two-space run between two words becomes one `_`. */
  lemma CollapsedExample(first: string, last: string)
    requires forall i :: 0 <= i < |first| ==> IsAlnum(first[i])
    requires last != [] && forall i :: 0 <= i < |last| ==> IsAlnum(last[i])
    ensures CollapseSpaces(first + "  " + last) == first + "_" + last
  {
    var run, tail := "  ", "  " + last;
    assert AllSpace(run);
    CollapseRun(run, last);
    CollapseWord(last);
    assert CollapseSpaces(tail) == "_" + last;
    CollapseWordThen(first, tail);
    Reassociate(first, run, last);
    Reassociate(first, "_", last);
  }

  lemma Reassociate(a: string, b: string, c: string)
    ensures a + (b + c) == a + b + c
  {
  }

  /** Invoice number 7 is written `0007`. */
  lemma PaddedSeven()
    ensures PadStart(Decimal(7), 4, '0') == "0007"
  {
    assert Decimal(7) == "7";
    assert Repeat('0', 3) == "000";
  }

  /** The first replacement drops the `@` and the `!`s and keeps the two spaces. */
  lemma KeptNameChars(first: string, last: string)
    requires forall i :: 0 <= i < |first| ==> IsAlnum(first[i])
    requires forall i :: 0 <= i < |last| ==> IsAlnum(last[i])
    ensures Filter(first + " @ " + last + "!!", IsNameChar) == first + "  " + last
  {
    FilterKeepsAll(first, IsNameChar);
    FilterKeepsAll(last, IsNameChar);
    FilterConcat(first + " @ " + last, "!!", IsNameChar);
    FilterConcat(first + " @ ", last, IsNameChar);
    FilterConcat(first, " @ ", IsNameChar);
    SeparatorChars();
  }

  lemma SeparatorChars()
    ensures Filter(" @ ", IsNameChar) == "  "
    ensures Filter("!!", IsNameChar) == ""
  {
    assert " @ "[1..] == "@ " && "@ "[1..] == " " && " "[1..] == "";
    assert "!!"[1..] == "!" && "!"[1..] == "";
  }

  // ---------------------------------------------------------------------------
  // The WhatsApp phone number

  /** The customer phone for WhatsApp: its digits, with `91` put before a bare ten-digit number. */
  function WhatsAppPhone(phone: string): (r: string)
    ensures AllDigits(r)
    ensures |r| >= |DigitsOf(phone)| && r[|r| - |DigitsOf(phone)|..] == DigitsOf(phone)
    ensures |DigitsOf(phone)| == 10 <==> r == "91" + DigitsOf(phone)
    ensures |DigitsOf(phone)| != 10 ==> r == DigitsOf(phone)
  {
    var digits := DigitsOf(phone);
    if |digits| == 10 then "91" + digits else digits
  }

  /** Normalising a normalised number changes nothing: a prefixed number has twelve digits. */
  lemma WhatsAppPhoneIdempotent(phone: string)
    ensures WhatsAppPhone(WhatsAppPhone(phone)) == WhatsAppPhone(phone)
  {
    DigitsOfDigits(WhatsAppPhone(phone));
  }

  /** Separating two groups of digits with a space does not change the digits. */
  lemma DigitsAcrossSpace(a: string, b: string)
    requires AllDigits(a) && AllDigits(b)
    ensures DigitsOf(a + " " + b) == a + b
  {
    DigitsOfDigits(a);
    DigitsOfDigits(b);
    FilterConcat(a + " ", b, IsDigit);
    FilterConcat(a, " ", IsDigit);
    assert DigitsOf(" ") == "" by {
      assert " "[1..] == "";
    }
  }

  /** A formatted Indian number with its separator gets the country code. */
  lemma WhatsAppPhoneExample()
    ensures WhatsAppPhone("98815 98109") == "91" + "9881598109"
  {
    var digits := "9881598109";
    assert DigitsOf("98815 98109") == digits by {
      var a, b := "98815", "98109";
      assert AllDigits(a) && AllDigits(b);
      DigitsAcrossSpace(a, b);
      assert "98815 98109" == a + " " + b;
      assert a + b == digits;
    }
  }

  // ---------------------------------------------------------------------------
  // The share path

  /**
   * What the browser reports: whether the PDF could be rendered (the template is
   * on the page), whether the user agent looks mobile, whether `navigator.share`
   * and `navigator.canShare` exist, whether `canShare` accepts the file, and
   * whether the share sheet completed rather than rejecting.
   */
  datatype ShareEnv = ShareEnv(
    pdfReady: bool,
    isMobile: bool,
    hasShare: bool,
    hasCanShare: bool,
    canShareFile: bool,
    shareCompleted: bool)

  /** The path taken: the share sheet, the download-and-WhatsApp fallback, or an error. */
  datatype ShareOutcome =
    | SharedDirectly
    | Downloaded(filename: string, phone: string)
    | Failed

  /** `sharePDFOnWhatsApp`, as the path it takes. */
  function SharePath(env: ShareEnv, invoice: Invoice): (r: ShareOutcome)
    ensures r.SharedDirectly? <==>
      env.pdfReady && env.isMobile && env.hasShare && env.hasCanShare && env.canShareFile && env.shareCompleted
    ensures r.Downloaded? <==>
      env.pdfReady && !(env.isMobile && env.hasShare && env.hasCanShare && env.canShareFile)
    ensures r.Downloaded? ==>
      r.filename == PdfFilename(invoice) && r.phone == WhatsAppPhone(invoice.data.customerPhone)
  {
    if !env.pdfReady then Failed
    else if env.isMobile && env.hasShare && env.hasCanShare && env.canShareFile then
      (if env.shareCompleted then SharedDirectly else Failed)
    else Downloaded(PdfFilename(invoice), WhatsAppPhone(invoice.data.customerPhone))
  }

  /** The boolean `sharePDFOnWhatsApp` resolves to: whether the share sheet was used. */
  function SharePdfOnWhatsApp(env: ShareEnv, invoice: Invoice): (shared: bool)
    ensures shared ==> env.isMobile && env.hasShare && env.hasCanShare && env.canShareFile
    ensures !env.pdfReady || !env.shareCompleted ==> !shared
  {
    SharePath(env, invoice).SharedDirectly?
  }

  /** The fallback never reports success, and neither does an error. */
  lemma FallbackReportsFalse(env: ShareEnv, invoice: Invoice)
    requires SharePath(env, invoice).Downloaded? || SharePath(env, invoice).Failed?
    ensures !SharePdfOnWhatsApp(env, invoice)
  {
  }
}
