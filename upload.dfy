/** The invoice upload form: its fields, the file-selection guard, the
    fail-fast validation of a submission, and the request built once the
    file has been read as a data URL. */
module UploadForm {

  import opened Outcomes
  import opened Strings

  /** A file chosen in the file input; only its identity matters here. */
  datatype File = File(name: string)

  // ---------------------------------------------------------------------
  // What `parseFloat` reads

  /** StrWhiteSpaceChar of ECMAScript: white space and line terminators. */
  predicate IsStrWhiteSpace(c: char) {
    || c == '\t' || c == '\U{000B}' || c == '\U{000C}' || c == ' ' || c == '\U{00A0}' || c == '\U{FEFF}'
    || c == '\n' || c == '\r' || c == '\U{2028}' || c == '\U{2029}'
    || c == '\U{1680}' || ('\U{2000}' <= c <= '\U{200A}') || c == '\U{202F}' || c == '\U{205F}' || c == '\U{3000}'
  }

  /** The number of leading white-space characters. */
  function LeadingSpaces(s: string): (n: nat)
    ensures n <= |s|
    ensures forall i | 0 <= i < n :: IsStrWhiteSpace(s[i])
    ensures n < |s| ==> !IsStrWhiteSpace(s[n])
    decreases |s|
  {
    if s != [] && IsStrWhiteSpace(s[0]) then 1 + LeadingSpaces(s[1..]) else 0
  }

  /** The number of leading decimal digits. */
  function DigitRun(s: string): (n: nat)
    ensures n <= |s|
    ensures forall i | 0 <= i < n :: IsDigit(s[i])
    ensures n < |s| ==> !IsDigit(s[n])
    decreases |s|
  {
    if s != [] && IsDigit(s[0]) then 1 + DigitRun(s[1..]) else 0
  }

  /** The length of a leading sign, 0 or 1. */
  function SignLength(s: string): nat {
    if s != [] && (s[0] == '+' || s[0] == '-') then 1 else 0
  }

  /** The length of a leading exponent part (`e` or `E`, an optional sign,
      at least one digit); 0 when there is none. */
  function ExponentLength(s: string): (n: nat)
    ensures n <= |s|
  {
    if s != [] && (s[0] == 'e' || s[0] == 'E') then
      var sign := SignLength(s[1..]);
      var digits := DigitRun(s[1 + sign..]);
      if digits > 0 then 1 + sign + digits else 0
    else 0
  }

  /** The length of the longest prefix of `u` that is a
      StrUnsignedDecimalLiteral ("Infinity", or digits with an optional
      fraction and exponent, or a fraction alone with an optional exponent);
      0 when there is none. */
  function UnsignedLiteralLength(u: string): (n: nat)
    ensures n <= |u|
  {
    if |u| >= 8 && u[..8] == "Infinity" then 8
    else
      var intLen := DigitRun(u);
      var hasDot := intLen < |u| && u[intLen] == '.';
      var fracLen := if hasDot then DigitRun(u[intLen + 1..]) else 0;
      if intLen + fracLen == 0 then 0
      else
        var mantissa := intLen + (if hasDot then 1 + fracLen else 0);
        mantissa + ExponentLength(u[mantissa..])
  }

  /** The longest prefix of `s`, after leading white space, that is a
      StrDecimalLiteral: the text `parseFloat` turns into its result; None
      when there is no such prefix, which is when `parseFloat` gives NaN. */
  function NumericPrefix(s: string): (r: Option<string>)
    ensures r.Some? ==> 0 < |r.value| <= |s| - LeadingSpaces(s)
  {
    SignedLiteral(s[LeadingSpaces(s)..])
  }

  /** The longest prefix of `t` that is an optional sign followed by a
      StrUnsignedDecimalLiteral. */
  function SignedLiteral(t: string): (r: Option<string>)
    ensures r.Some? ==> 0 < |r.value| <= |t|
  {
    var sign := SignLength(t);
    var n := UnsignedLiteralLength(t[sign..]);
    if n == 0 then None else Some(t[..sign + n])
  }

  /** The text starts with a digit, with a point followed by a digit, or
      with "Infinity". */
  predicate StartsUnsigned(u: string) {
    || (|u| >= 1 && IsDigit(u[0]))
    || (|u| >= 2 && u[0] == '.' && IsDigit(u[1]))
    || (|u| >= 8 && u[..8] == "Infinity")
  }

  /** After white space and an optional sign, the text starts with a digit,
      with a point followed by a digit, or with "Infinity". */
  predicate StartsNumeric(s: string) {
    var t := s[LeadingSpaces(s)..];
    StartsUnsigned(t[SignLength(t)..])
  }

  /** An unsigned literal is present exactly when the text starts like one. */
  lemma UnsignedLiteralExactlyWhenStarts(u: string)
    ensures UnsignedLiteralLength(u) > 0 <==> StartsUnsigned(u)
  {
    if !(|u| >= 8 && u[..8] == "Infinity") {
      var intLen := DigitRun(u);
      if intLen == 0 && |u| >= 1 && u[0] == '.' {
        assert |u| >= 2 && IsDigit(u[1]) <==> DigitRun(u[1..]) > 0;
      }
    }
  }

  /** `parseFloat` gives NaN exactly when the text does not start with a
      number; what it reads is a non-empty prefix of the text after its
      leading white space. */
  lemma NumericPrefixExactlyWhenNumeric(s: string)
    ensures NumericPrefix(s).Some? <==> StartsNumeric(s)
    ensures NumericPrefix(s).Some? ==>
      var t := s[LeadingSpaces(s)..];
      && |NumericPrefix(s).value| >= 1
      && NumericPrefix(s).value <= t
  {
    var t := s[LeadingSpaces(s)..];
    UnsignedLiteralExactlyWhenStarts(t[SignLength(t)..]);
  }

  // ---------------------------------------------------------------------
  // Validation

  /** `amount.replace(",", ".")`: only the first comma becomes a point. */
  function NormalizeAmount(amount: string): string {
    ReplaceFirst(amount, ',', '.')
  }

  /** A decimal comma is read as a point. */
  lemma DecimalCommaExample()
    ensures NumericPrefix(NormalizeAmount("12,5")) == Some("12.5")
  {
    calc {
      NumericPrefix(NormalizeAmount("12,5"));
      { NormalizeDecimalComma(); }
      NumericPrefix("12.5");
      { ReadDecimalPoint(); }
      Some("12.5");
    }
  }

  lemma NormalizeDecimalComma()
    ensures NormalizeAmount("12,5") == "12.5"
  {
    var s := "12,5";
    assert s[..2] == "12" && s[2] == ',';
    assert IndexOf(s, ',') == Some(2);
  }

  lemma ReadDecimalPoint()
    ensures NumericPrefix("12.5") == Some("12.5")
  {
    var t := "12.5";
    assert LeadingSpaces(t) == 0 && t[0..] == t && SignLength(t) == 0;
    DecimalPointLength();
    assert t[..4] == t;
  }

  lemma DecimalPointLength()
    ensures UnsignedLiteralLength("12.5") == 4
  {
    var u := "12.5";
    assert DigitRun(u) == 2 by { assert u[1..] == "2.5" && u[1..][1..] == ".5"; }
    assert u[2] == '.';
    assert u[3..] == "5" && DigitRun(u[3..]) == 1 by { assert u[3..][1..] == []; }
    assert u[4..] == [] && ExponentLength(u[4..]) == 0;
  }

  /** Only the first comma is replaced, so reading stops at the second. */
  lemma SecondCommaExample()
    ensures NumericPrefix(NormalizeAmount("1,234,5")) == Some("1.234")
  {
    calc {
      NumericPrefix(NormalizeAmount("1,234,5"));
      { NormalizeFirstCommaOnly(); }
      NumericPrefix("1.234,5");
      { assert "1.234,5" == "1.234" + [',', '5']; ReadFractionBefore(','); }
      Some("1.234");
    }
  }

  /** "1,234,5" entered in one change is stored as "1.234,5" and normalised
      again on submit to "1.234.5", which is still read as 1.234. */
  lemma PastedAmountExample()
    ensures NumericPrefix(NormalizeAmount(NormalizeAmount("1,234,5"))) == Some("1.234")
  {
    calc {
      NumericPrefix(NormalizeAmount(NormalizeAmount("1,234,5")));
      { NormalizeFirstCommaOnly(); }
      NumericPrefix(NormalizeAmount("1.234,5"));
      { NormalizeStoredAmount(); }
      NumericPrefix("1.234.5");
      { assert "1.234.5" == "1.234" + ['.', '5']; ReadFractionBefore('.'); }
      Some("1.234");
    }
  }

  lemma NormalizeFirstCommaOnly()
    ensures NormalizeAmount("1,234,5") == "1.234,5"
  {
    var s := "1,234,5";
    assert s[..1] == "1" && s[1] == ',';
    assert IndexOf(s, ',') == Some(1);
  }

  lemma NormalizeStoredAmount()
    ensures NormalizeAmount("1.234,5") == "1.234.5"
  {
    assert "1.234,5" == "1.234" + [','] + "5";
    assert ',' !in "1.234";
    NormalizeFirstComma("1.234", "5");
    assert "1.234" + ['.'] + "5" == "1.234.5";
  }

  /** The first comma, after a comma-free start, becomes a point. */
  lemma NormalizeFirstComma(p: string, q: string)
    requires ',' !in p
    ensures NormalizeAmount(p + [','] + q) == p + ['.'] + q
  {
    var s := p + [','] + q;
    assert s[..|p|] == p && s[|p| + 1..] == q;
    ReplaceAtFirst(s, |p|, ',', '.');
  }

  /** A fraction is read up to the first character that is neither a digit
      nor the start of an exponent. */
  lemma ReadFractionBefore(c: char)
    requires !IsDigit(c) && c != 'e' && c != 'E'
    ensures NumericPrefix("1.234" + [c, '5']) == Some("1.234")
  {
    var t := "1.234" + [c, '5'];
    assert LeadingSpaces(t) == 0 && t[0..] == t && SignLength(t) == 0;
    FractionLength(c);
    assert t[..5] == "1.234";
  }

  lemma FractionLength(c: char)
    requires !IsDigit(c) && c != 'e' && c != 'E'
    ensures UnsignedLiteralLength("1.234" + [c, '5']) == 5
  {
    var u := "1.234" + [c, '5'];
    assert DigitRun(u) == 1 by { assert IsDigit(u[0]) && !IsDigit(u[1]); }
    assert u[1] == '.';
    var f := u[2..];
    assert DigitRun(f) == 3 by {
      assert IsDigit(f[0]) && IsDigit(f[1]) && IsDigit(f[2]) && !IsDigit(f[3]);
    }
    assert u[5..] == [c, '5'] && ExponentLength(u[5..]) == 0;
  }

  /** Trailing letters are ignored and an exponent is read. */
  lemma ExponentExample()
    ensures NumericPrefix(NormalizeAmount("3e2kg")) == Some("3e2")
  {
    calc {
      NumericPrefix(NormalizeAmount("3e2kg"));
      { NormalizeWithoutComma("3e2kg"); }
      NumericPrefix("3e2kg");
      { assert "3e2kg" == "3e2" + "kg"; ReadExponentBefore("kg"); }
      Some("3e2");
    }
  }

  lemma NormalizeWithoutComma(s: string)
    requires ',' !in s
    ensures NormalizeAmount(s) == s
  {
  }

  /** An exponent is read up to the first character that is not a digit. */
  lemma ReadExponentBefore(rest: string)
    requires rest == [] || !IsDigit(rest[0])
    ensures NumericPrefix("3e2" + rest) == Some("3e2")
  {
    var t := "3e2" + rest;
    assert LeadingSpaces(t) == 0 && t[0..] == t && SignLength(t) == 0;
    ExponentLiteralLength(rest);
    assert t[..3] == "3e2";
  }

  /** A leading white-space character does not change what `parseFloat`
      reads. */
  lemma SpaceIsSkipped(c: char, s: string)
    requires IsStrWhiteSpace(c)
    ensures NumericPrefix([c] + s) == NumericPrefix(s)
  {
    var w := [c] + s;
    assert w[1..] == s;
    assert LeadingSpaces(w) == 1 + LeadingSpaces(s);
    assert w[LeadingSpaces(w)..] == s[LeadingSpaces(s)..];
    calc {
      NumericPrefix(w);
      SignedLiteral(w[LeadingSpaces(w)..]);
      SignedLiteral(s[LeadingSpaces(s)..]);
      NumericPrefix(s);
    }
  }

  lemma ExponentLiteralLength(rest: string)
    requires rest == [] || !IsDigit(rest[0])
    ensures UnsignedLiteralLength("3e2" + rest) == 3
  {
    var u := "3e2" + rest;
    var e := u[1..];
    assert DigitRun(u) == 1 by { assert IsDigit(u[0]) && !IsDigit(u[1]); }
    assert u[1] != '.';
    assert ExponentLength(e) == 2 by {
      assert e[0] == 'e' && SignLength(e[1..]) == 0 && e[1..][0..] == e[1..];
      assert DigitRun(e[1..]) == 1 by { assert IsDigit(e[1]) && e[1..][1..] == rest; }
    }
  }


  /** A lone point is not a number. */
  lemma LonePointExample()
    ensures NumericPrefix(NormalizeAmount(",")) == None
  {
    assert IndexOf(",", ',') == Some(0);
    assert NormalizeAmount(",") == ".";
    var t := ".";
    assert LeadingSpaces(t) == 0 && SignLength(t) == 0 && t[0..] == t;
    assert DigitRun(t) == 0 && t[1..] == [] && DigitRun(t[1..]) == 0;
  }

  datatype ValidationError = MissingFile | IncompleteFields | InvalidAmount {
    /** The toast shown for the rejection. */
    function Message(): string {
      match this
      case MissingFile => "Por favor, seleccione un archivo"
      case IncompleteFields => "Por favor, complete todos los campos"
      case InvalidAmount => "Por favor, ingrese un valor numérico válido"
    }
  }

  /** What an accepted submission hands to the file reader's callback: the
      file to read and the form values the callback's closure captured.
      `value` is the numeric text `parseFloat` read. */
  datatype Submission = Submission(file: File, value: string, date: string, description: string, category: string)

  /** A rejection ends the submission; only an acceptance reaches
      `readAsDataURL`. */
  datatype Validation = Rejected(error: ValidationError) | Accepted(submission: Submission)

  /** The guard chain of `handleSubmit`: the first failing check wins. */
  function Validate(file: Option<File>, amount: string, category: string, date: string, description: string): (r: Validation)
    ensures file.None? ==> r == Rejected(MissingFile)
    ensures file.Some? && (amount == "" || category == "" || date == "") ==> r == Rejected(IncompleteFields)
    ensures file.Some? && amount != "" && category != "" && date != "" && !StartsNumeric(NormalizeAmount(amount))
      ==> r == Rejected(InvalidAmount)
    ensures r.Accepted? <==>
      file.Some? && amount != "" && category != "" && date != "" && StartsNumeric(NormalizeAmount(amount))
    ensures r.Accepted? ==>
      && r.submission.file == file.value
      && NumericPrefix(NormalizeAmount(amount)) == Some(r.submission.value)
      && r.submission.date == date
      && r.submission.description == description
      && r.submission.category == category
  {
    NumericPrefixExactlyWhenNumeric(NormalizeAmount(amount));
    if file.None? then Rejected(MissingFile)
    else if amount == "" || category == "" || date == "" then Rejected(IncompleteFields)
    else
      match NumericPrefix(NormalizeAmount(amount))
      case None => Rejected(InvalidAmount)
      case Some(value) => Accepted(Submission(file.value, value, date, description, category))
  }

  // ---------------------------------------------------------------------
  // The create request

  /** `fileReader.result.split(",")[1] || ""`: the second comma-separated
      field of the data URL, or "" when there is none. */
  function DataUrlContent(url: string): (content: string)
    ensures ',' !in content
    ensures content != "" ==> content in Split(url, ',')[1..]
    ensures ',' in url ==>
      var i := IndexOf(url, ',').value;
      content <= url[i + 1..] && (i + 1 + |content| == |url| || url[i + 1 + |content|] == ',')
  {
    var fields := Split(url, ',');
    if ',' in url then
      var i := IndexOf(url, ',').value;
      SplitAtFirst(url, ',');
      SplitHead(url[i + 1..], ',');
      fields[1]
    else if |fields| >= 2 then fields[1] else ""
  }

  /** A data URL of the form `data:<mediatype>;base64,<data>` (section 3 of
      RFC 2397) whose media type and data hold no comma gives back its data. */
  lemma {:induction false} DataUrlContentIsData(mediaType: string, data: string)
    requires ',' !in mediaType && ',' !in data
    ensures DataUrlContent("data:" + mediaType + ";base64," + data) == data
  {
    var header := "data:" + mediaType + ";base64";
    assert ',' !in header;
    SplitJoin([header, data], ',');
    assert [header, data][1..] == [data];
    assert Join([header, data], ',') == header + [','] + data;
    assert "data:" + mediaType + ";base64," + data == header + [','] + data;
  }

  /** A URL without a comma gives empty content. */
  lemma {:induction false} DataUrlWithoutComma(url: string)
    requires ',' !in url
    ensures DataUrlContent(url) == ""
  {
    SplitJoin([url], ',');
  }

  const UploadUserName := "Nombre de usuario"

  /** The argument of `createInvoice`. */
  datatype Payload = Payload(userName: string, value: string, date: string, description: string, category: string, content: string)

  /** The request the reader's callback sends. */
  function BuildPayload(sub: Submission, dataUrl: string): (p: Payload)
    ensures p.userName == UploadUserName
    ensures p.value == sub.value && p.date == sub.date && p.description == sub.description && p.category == sub.category
    ensures ',' !in p.content
    ensures p.content == DataUrlContent(dataUrl)
  {
    Payload(UploadUserName, sub.value, sub.date, sub.description, sub.category, DataUrlContent(dataUrl))
  }

  /** From form to request: for an accepted form whose file reads as a data
      URL with comma-free media type and data, the request carries the fixed
      user name, the numeric text of the normalised amount, the form's
      date, description and category, and exactly the encoded data. */
  lemma SubmissionPayload(file: File, amount: string, category: string, date: string, description: string,
                          mediaType: string, data: string)
    requires Validate(Some(file), amount, category, date, description).Accepted?
    requires ',' !in mediaType && ',' !in data
    ensures var p := BuildPayload(Validate(Some(file), amount, category, date, description).submission,
                                  "data:" + mediaType + ";base64," + data);
      && p.userName == "Nombre de usuario"
      && Some(p.value) == NumericPrefix(NormalizeAmount(amount))
      && p.date == date && p.description == description && p.category == category
      && p.content == data
  {
    DataUrlContentIsData(mediaType, data);
  }

  const UploadSuccessText := "Factura cargada exitosamente"
  const UploadErrorText := "Error al cargar la factura. Por favor, inténtelo de nuevo más tarde."
  const HomeRoute := "/home"

  /** The outcome of `createInvoice`: success goes back to the listing, an
      expired session to the login route, any other error stays on the page. */
  function SubmitReaction(response: Response<()>): (r: Reaction)
    ensures response.Ok? ==> r == Reaction(SuccessToast(UploadSuccessText), Some("/home"))
    ensures response.Err? ==> r.toast.ErrorToast?
    ensures response.Err? ==> (r.redirect == Some("/") <==> response.error.message == "Unauthorized")
    ensures response.Err? ==> (r.redirect == None <==> response.error.message != "Unauthorized")
  {
    match response
    case Ok(_) => Reaction(SuccessToast(UploadSuccessText), Some(HomeRoute))
    case Err(e) => FailureReaction(e, UploadErrorText)
  }

  // ---------------------------------------------------------------------
  // The form component

  class InvoiceUpload {
    var file: Option<File>
    var amount: string
    var category: string
    var description: string
    var invoiceDate: string

    /** `new Date().toISOString().substr(0, 10)` is the initial date; the
        clock's reading arrives as a parameter. */
    constructor (nowIso: string)
      ensures file == None && amount == "" && category == "" && description == ""
      ensures invoiceDate == if |nowIso| >= 10 then nowIso[..10] else nowIso
    {
      file := None;
      amount := "";
      category := "";
      description := "";
      invoiceDate := if |nowIso| >= 10 then nowIso[..10] else nowIso;
    }

    /** `handleFileUpload`: an empty selection keeps the previous file. */
    method HandleFileUpload(selected: Option<File>)
      modifies this`file
      ensures file == if selected.Some? then selected else old(file)
    {
      if selected.Some? {
        file := selected;
      }
    }

    /** The amount input's change handler stores the value with its first
        comma already turned into a point. */
    method HandleAmountChange(value: string)
      modifies this`amount
      ensures amount == NormalizeAmount(value)
    {
      amount := NormalizeAmount(value);
    }

    method HandleCategoryChange(value: string)
      modifies this`category
      ensures category == value
    {
      category := value;
    }

    method HandleDescriptionChange(value: string)
      modifies this`description
      ensures description == value
    {
      description := value;
    }

    method HandleDateChange(value: string)
      modifies this`invoiceDate
      ensures invoiceDate == value
    {
      invoiceDate := value;
    }

    /** `handleSubmit` up to `readAsDataURL`: the form is validated; an
        acceptance names the file to read and the captured values. */
    method HandleSubmit() returns (step: Validation)
      ensures step == Validate(file, amount, category, invoiceDate, description)
    {
      step := Validate(file, amount, category, invoiceDate, description);
    }
  }
}
