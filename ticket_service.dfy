/**
 * The ticket service: validation of a finished draft, HTML escaping of the
 * user's text, the ticket message template, and the dispatch of a ticket
 * (its text, then each attachment) to the destination chat.
 *
 * Sends to the destination chat are not performed: `CreateTicket` returns the
 * sends it attempts, and an oracle `fails` says which attempts the transport
 * rejects. All sends go to the one configured destination chat, so the chat
 * id is left out of `Outbound`. Logging is a no-op. The source's two
 * `logger.error` calls name an identifier that is never defined;
 * `CreateTicketSpec` is the evidently intended dispatch, and
 * `CreateTicketAsWritten` models the code as written.
 */
module TicketService {
  import opened Wrappers
  import opened JsString

  /** One attachment of a draft: `type` ("photo" or "video" when the bot adds it) and the platform's file id. */
  datatype MediaItem = MediaItem(kind: string, fileId: string)

  /** The draft a conversation builds up. A field the bot has not set yet, or set to `undefined`, is `None`. */
  datatype TicketData = TicketData(
    merchantName: Option<string>,
    description: Option<string>,
    username: Option<string>,
    media: seq<MediaItem>)

  datatype ValidationError = MerchantTooShort | DescriptionTooShort

  const MinMerchantLength: nat := 2
  const MinDescriptionLength: nat := 10

  /** The text the bot shows the user for a validation error. */
  function ErrorMessage(e: ValidationError): string {
    match e
    case MerchantTooShort => "Merchant name must be at least 2 characters long"
    case DescriptionTooShort => "Problem description must be at least 10 characters long"
  }

  /** The field is present and its trimmed JavaScript length is at least `min`. */
  predicate LongEnough(field: Option<string>, min: nat) {
    field.Some? && Utf16Length(Trim(field.value)) >= min
  }

  /** `validateTicketData`: the first rule that fails, merchant name before description; `None` when both hold. */
  function ValidateTicketData(t: TicketData): (r: Option<ValidationError>)
    ensures r == Some(MerchantTooShort) <==> !LongEnough(t.merchantName, MinMerchantLength)
    ensures r == Some(DescriptionTooShort) <==>
      LongEnough(t.merchantName, MinMerchantLength) && !LongEnough(t.description, MinDescriptionLength)
    ensures r == None <==>
      LongEnough(t.merchantName, MinMerchantLength) && LongEnough(t.description, MinDescriptionLength)
  {
    if !LongEnough(t.merchantName, MinMerchantLength) then Some(MerchantTooShort)
    else if !LongEnough(t.description, MinDescriptionLength) then Some(DescriptionTooShort)
    else None
  }

  /** Whitespace around the merchant name or the description never changes the verdict. */
  lemma ValidationIgnoresPadding(t: TicketData, w1: string, w2: string, w3: string, w4: string)
    requires t.merchantName.Some? && t.description.Some?
    requires AllWhitespace(w1) && AllWhitespace(w2) && AllWhitespace(w3) && AllWhitespace(w4)
    ensures ValidateTicketData(t.(merchantName := Some(w1 + t.merchantName.value + w2),
                                  description := Some(w3 + t.description.value + w4)))
         == ValidateTicketData(t)
  {
    TrimIgnoresPadding(w1, t.merchantName.value, w2);
    TrimIgnoresPadding(w3, t.description.value, w4);
  }

  /** Text that starts and ends with a non-whitespace character and takes one UTF-16 unit per character. */
  predicate IsCore(core: string) {
    core != [] && !IsJsWhitespace(core[0]) && !IsJsWhitespace(core[|core| - 1]) && InBmp(core)
  }

  lemma PaddedLength(w1: string, core: string, w2: string)
    requires AllWhitespace(w1) && AllWhitespace(w2) && IsCore(core)
    ensures Utf16Length(Trim(w1 + core + w2)) == |core|
  {
    TrimIgnoresPadding(w1, core, w2);
    TrimKeepsCore(core);
    Utf16LengthInBmp(core);
  }

  /**
   * The limits are inclusive and measured after trimming: a merchant name of
   * exactly 2 characters and a description of exactly 10 pass whatever
   * whitespace surrounds them; one character less fails, merchant first.
   */
  lemma ValidationBoundaries(t: TicketData, w1: string, merchant: string, w2: string, w3: string, description: string, w4: string)
    requires AllWhitespace(w1) && AllWhitespace(w2) && AllWhitespace(w3) && AllWhitespace(w4)
    requires IsCore(merchant) && IsCore(description)
    requires t.merchantName == Some(w1 + merchant + w2) && t.description == Some(w3 + description + w4)
    ensures |merchant| == 2 && |description| == 10 ==> ValidateTicketData(t) == None
    ensures |merchant| == 1 ==> ValidateTicketData(t) == Some(MerchantTooShort)
    ensures |merchant| == 2 && |description| == 9 ==> ValidateTicketData(t) == Some(DescriptionTooShort)
  {
    PaddedLength(w1, merchant, w2);
    PaddedLength(w3, description, w4);
  }

  // ---------------------------------------------------------------------
  // HTML escaping

  /** The characters the ticket's HTML markup gives a meaning to, `&` aside. */
  predicate IsMarkupSpecial(c: char) {
    c == '<' || c == '>' || c == '"' || c == '\''
  }

  predicate IsEscaped(c: char) {
    c == '&' || IsMarkupSpecial(c)
  }

  function EscapeChar(c: char): string {
    if c == '&' then "&amp;"
    else if c == '<' then "&lt;"
    else if c == '>' then "&gt;"
    else if c == '"' then "&quot;"
    else if c == '\'' then "&#039;"
    else [c]
  }

  /** `escapeHtml`: every one of `& < > " '` replaced by its entity, every other character kept. */
  function EscapeHtml(s: string): (r: string)
    ensures |r| >= |s|
    ensures forall i :: 0 <= i < |r| ==> !IsMarkupSpecial(r[i])
  {
    if s == [] then [] else EscapeChar(s[0]) + EscapeHtml(s[1..])
  }

  /** The five entities `escapeHtml` produces. */
  predicate StartsWithEntity(s: string) {
    HasPrefix("&amp;", s) || HasPrefix("&lt;", s) || HasPrefix("&gt;", s)
    || HasPrefix("&quot;", s) || HasPrefix("&#039;", s)
  }

  lemma AppendAssoc<T>(a: seq<T>, b: seq<T>, c: seq<T>)
    ensures a + (b + c) == (a + b) + c
  {
  }

  /** Escaping works character by character. */
  lemma {:induction false} EscapeHtmlAppend(a: string, b: string)
    ensures EscapeHtml(a + b) == EscapeHtml(a) + EscapeHtml(b)
  {
    if a == [] {
      assert a + b == b;
    } else {
      var c := EscapeChar(a[0]);
      assert (a + b)[0] == a[0] && (a + b)[1..] == a[1..] + b;
      assert EscapeHtml(a + b) == c + EscapeHtml(a[1..] + b);
      EscapeHtmlAppend(a[1..], b);
      AppendAssoc(c, EscapeHtml(a[1..]), EscapeHtml(b));
    }
  }

  /** Text without any of the five characters comes out unchanged. */
  lemma {:induction false} EscapeHtmlKeepsPlainText(s: string)
    requires forall i :: 0 <= i < |s| ==> !IsEscaped(s[i])
    ensures EscapeHtml(s) == s
  {
    if s != [] {
      EscapeHtmlKeepsPlainText(s[1..]);
    }
  }

  /** Every `&` of the output begins one of the five entities. */
  lemma {:induction false} EscapedAmpersandsStartEntities(s: string)
    ensures forall i :: 0 <= i < |EscapeHtml(s)| && EscapeHtml(s)[i] == '&' ==> StartsWithEntity(EscapeHtml(s)[i..])
  {
    if s != [] {
      var e, rest := EscapeChar(s[0]), EscapeHtml(s[1..]);
      EscapedAmpersandsStartEntities(s[1..]);
      assert EscapeHtml(s) == e + rest;
      forall i | 0 <= i < |e + rest| && (e + rest)[i] == '&'
        ensures StartsWithEntity((e + rest)[i..])
      {
        if i < |e| {
          assert i == 0 && (e + rest)[..|e|] == e;
        } else {
          assert (e + rest)[i..] == rest[i - |e|..];
        }
      }
    }
  }

  /** The character a piece of escaped text starts with, and how many characters encode it. */
  function DecodeFirst(s: string): (r: (char, nat))
    requires s != []
    ensures 1 <= r.1 <= |s|
  {
    if HasPrefix("&amp;", s) then ('&', 5)
    else if HasPrefix("&lt;", s) then ('<', 4)
    else if HasPrefix("&gt;", s) then ('>', 4)
    else if HasPrefix("&quot;", s) then ('"', 6)
    else if HasPrefix("&#039;", s) then ('\'', 6)
    else (s[0], 1)
  }

  /** Decodes the five entities `escapeHtml` produces; any other text is kept as it is. */
  function Unescape(s: string): string
    decreases |s|
  {
    if s == [] then []
    else var (c, n) := DecodeFirst(s); [c] + Unescape(s[n..])
  }

  /** The encoding of one character is read back as that character, whatever follows it. */
  lemma DecodeFirstEscapeChar(c: char, rest: string)
    ensures DecodeFirst(EscapeChar(c) + rest) == (c, |EscapeChar(c)|)
  {
    var e := EscapeChar(c);
    var s := e + rest;
    assert s[..|e|] == e;
    if c == '&' {
      assert HasPrefix("&amp;", s);
    } else if c == '<' {
      assert s[1] == 'l';
    } else if c == '>' {
      assert s[1] == 'g';
    } else if c == '"' {
      assert s[1] == 'q';
    } else if c == '\'' {
      assert s[1] == '#';
    } else {
      assert s[0] == c;
    }
  }

  /** Escaping loses nothing and never double-escapes: decoding the entities gives the original text back. */
  lemma {:induction false} UnescapeEscapeHtml(s: string)
    ensures Unescape(EscapeHtml(s)) == s
  {
    if s != [] {
      var e, rest := EscapeChar(s[0]), EscapeHtml(s[1..]);
      DecodeFirstEscapeChar(s[0], rest);
      assert (e + rest)[|e|..] == rest;
      UnescapeEscapeHtml(s[1..]);
      assert s == [s[0]] + s[1..];
    }
  }

  /** `text.replace(/c/g, rep)` for a one-character pattern. */
  function ReplaceAll(s: string, c: char, rep: string): string {
    if s == [] then [] else (if s[0] == c then rep else [s[0]]) + ReplaceAll(s[1..], c, rep)
  }

  /** `escapeHtml` as the source writes it: five global replacements, `&` first. */
  function ReplaceChain(s: string): string {
    ReplaceAll(ReplaceAll(ReplaceAll(ReplaceAll(ReplaceAll(s,
      '&', "&amp;"), '<', "&lt;"), '>', "&gt;"), '"', "&quot;"), '\'', "&#039;")
  }

  lemma {:induction false} ReplaceAllAppend(a: string, b: string, c: char, rep: string)
    ensures ReplaceAll(a + b, c, rep) == ReplaceAll(a, c, rep) + ReplaceAll(b, c, rep)
  {
    if a == [] {
      assert a + b == b;
    } else {
      assert (a + b)[1..] == a[1..] + b;
      ReplaceAllAppend(a[1..], b, c, rep);
    }
  }

  lemma {:induction false} ReplaceAllAbsent(s: string, c: char, rep: string)
    requires forall i :: 0 <= i < |s| ==> s[i] != c
    ensures ReplaceAll(s, c, rep) == s
  {
    if s != [] {
      ReplaceAllAbsent(s[1..], c, rep);
    }
  }

  lemma ReplaceChainAppend(a: string, b: string)
    ensures ReplaceChain(a + b) == ReplaceChain(a) + ReplaceChain(b)
  {
    var a1, b1 := ReplaceAll(a, '&', "&amp;"), ReplaceAll(b, '&', "&amp;");
    ReplaceAllAppend(a, b, '&', "&amp;");
    var a2, b2 := ReplaceAll(a1, '<', "&lt;"), ReplaceAll(b1, '<', "&lt;");
    ReplaceAllAppend(a1, b1, '<', "&lt;");
    var a3, b3 := ReplaceAll(a2, '>', "&gt;"), ReplaceAll(b2, '>', "&gt;");
    ReplaceAllAppend(a2, b2, '>', "&gt;");
    var a4, b4 := ReplaceAll(a3, '"', "&quot;"), ReplaceAll(b3, '"', "&quot;");
    ReplaceAllAppend(a3, b3, '"', "&quot;");
    ReplaceAllAppend(a4, b4, '\'', "&#039;");
  }

  lemma ReplaceAllOne(c: char, x: char, rep: string)
    ensures ReplaceAll([c], x, rep) == if c == x then rep else [c]
  {
    assert [c][1..] == [];
    assert (if c == x then rep else [c]) + [] == if c == x then rep else [c];
  }

  lemma ReplaceChainAmpersand()
    ensures ReplaceChain("&") == "&amp;"
  {
    var amp := "&amp;";
    ReplaceAllOne('&', '&', amp);
    assert ReplaceAll("&", '&', amp) == amp;
    ReplaceAllAbsent(amp, '<', "&lt;");
    ReplaceAllAbsent(amp, '>', "&gt;");
    ReplaceAllAbsent(amp, '"', "&quot;");
    ReplaceAllAbsent(amp, '\'', "&#039;");
  }

  lemma ReplaceChainPlain(c: char)
    requires !IsEscaped(c)
    ensures ReplaceChain([c]) == [c]
  {
    ReplaceAllOne(c, '&', "&amp;");
    ReplaceAllOne(c, '<', "&lt;");
    ReplaceAllOne(c, '>', "&gt;");
    ReplaceAllOne(c, '"', "&quot;");
    ReplaceAllOne(c, '\'', "&#039;");
  }

  lemma ReplaceChainLt()
    ensures ReplaceChain("<") == "&lt;"
  {
    var lt := "&lt;";
    ReplaceAllOne('<', '&', "&amp;");
    ReplaceAllOne('<', '<', lt);
    assert ReplaceAll(ReplaceAll("<", '&', "&amp;"), '<', lt) == lt;
    ReplaceAllAbsent(lt, '>', "&gt;");
    ReplaceAllAbsent(lt, '"', "&quot;");
    ReplaceAllAbsent(lt, '\'', "&#039;");
  }

  lemma ReplaceChainGt()
    ensures ReplaceChain(">") == "&gt;"
  {
    var gt := "&gt;";
    ReplaceAllOne('>', '&', "&amp;");
    ReplaceAllOne('>', '<', "&lt;");
    ReplaceAllOne('>', '>', gt);
    assert ReplaceAll(ReplaceAll(ReplaceAll(">", '&', "&amp;"), '<', "&lt;"), '>', gt) == gt;
    ReplaceAllAbsent(gt, '"', "&quot;");
    ReplaceAllAbsent(gt, '\'', "&#039;");
  }

  lemma ReplaceChainQuot()
    ensures ReplaceChain("\"") == "&quot;"
  {
    var quot := "&quot;";
    ReplaceAllOne('"', '&', "&amp;");
    ReplaceAllOne('"', '<', "&lt;");
    ReplaceAllOne('"', '>', "&gt;");
    ReplaceAllOne('"', '"', quot);
    assert ReplaceAll(ReplaceAll(ReplaceAll(ReplaceAll("\"", '&', "&amp;"), '<', "&lt;"), '>', "&gt;"), '"', quot) == quot;
    ReplaceAllAbsent(quot, '\'', "&#039;");
  }

  lemma ReplaceChainApos()
    ensures ReplaceChain("'") == "&#039;"
  {
    ReplaceAllOne('\'', '&', "&amp;");
    ReplaceAllOne('\'', '<', "&lt;");
    ReplaceAllOne('\'', '>', "&gt;");
    ReplaceAllOne('\'', '"', "&quot;");
    ReplaceAllOne('\'', '\'', "&#039;");
  }

  /** No later pass of the chain touches what an earlier one wrote. */
  lemma ReplaceChainOneChar(c: char)
    ensures ReplaceChain([c]) == EscapeChar(c)
  {
    if c == '&' {
      assert [c] == "&";
      ReplaceChainAmpersand();
    } else if c == '<' {
      assert [c] == "<";
      ReplaceChainLt();
    } else if c == '>' {
      assert [c] == ">";
      ReplaceChainGt();
    } else if c == '"' {
      assert [c] == "\"";
      ReplaceChainQuot();
    } else if c == '\'' {
      assert [c] == "'";
      ReplaceChainApos();
    } else {
      ReplaceChainPlain(c);
    }
  }

  /** The recursive definition agrees with the source's chain of replacements on every input. */
  lemma {:induction false} EscapeHtmlIsReplaceChain(s: string)
    ensures EscapeHtml(s) == ReplaceChain(s)
  {
    if s != [] {
      assert s == [s[0]] + s[1..];
      ReplaceChainAppend([s[0]], s[1..]);
      ReplaceChainOneChar(s[0]);
      EscapeHtmlIsReplaceChain(s[1..]);
    }
  }

  // ---------------------------------------------------------------------
  // The ticket message

  const Header: string := "\U{1F3AB} <b>New Support Ticket</b>\n\n\U{1F3EA} <b>Merchant:</b> "
  const ReporterLabel: string := "\n\U{1F464} <b>Reported by:</b> @"
  const DescriptionLabel: string := "\n\U{1F4DD} <b>Description:</b> "
  const CreatedLabel: string := "\n\U{23F0} <b>Created:</b> "

  /**
   * `formatTicketMessage`: the ticket header, then the escaped merchant name,
   * reporter and description under their labels, then the creation time;
   * `createdAt` stands for the ISO-8601 time of the dispatch, which is read
   * from the clock. `ParseFormatTicketMessage` shows every field can be read
   * back.
   */
  function FormatTicketMessage(merchantName: string, description: string, username: string, createdAt: string): string {
    Header + EscapeHtml(merchantName) + ReporterLabel + EscapeHtml(username)
    + DescriptionLabel + EscapeHtml(description) + CreatedLabel + createdAt
  }

  datatype TicketFields = TicketFields(merchantName: string, username: string, description: string, createdAt: string)

  /** The ticket message opens with the fixed header and closes with the creation time. */
  lemma FormatTicketMessageFrame(merchantName: string, description: string, username: string, createdAt: string)
    ensures var msg := FormatTicketMessage(merchantName, description, username, createdAt);
      && HasPrefix(Header, msg)
      && |createdAt| <= |msg| && msg[|msg| - |createdAt|..] == createdAt
  {
  }

  /** A message split around a marker. */
  datatype Cut = Cut(field: string, rest: string)

  /** The position of the first `<` in `s`, or `|s|`. */
  function FirstLt(s: string): (k: nat)
    ensures k <= |s|
    ensures k < |s| ==> s[k] == '<'
  {
    if s == [] || s[0] == '<' then 0 else 1 + FirstLt(s[1..])
  }

  predicate NoLt(s: string) {
    forall j :: 0 <= j < |s| ==> s[j] != '<'
  }

  lemma {:induction false} FirstLtAfterPlainText(a: string, b: string)
    requires NoLt(a)
    ensures FirstLt(a + b) == |a| + FirstLt(b)
  {
    if a == [] {
      assert a + b == b;
    } else {
      assert (a + b)[0] == a[0];
      assert (a + b)[1..] == a[1..] + b;
      FirstLtAfterPlainText(a[1..], b);
    }
  }

  /** Each label is a line break, an emoji and a space, then its markup. */
  const MarkupOffset: nat := 3

  predicate IsLabel(marker: string) {
    && |marker| > MarkupOffset
    && marker[MarkupOffset] == '<'
    && forall j :: 0 <= j < MarkupOffset ==> marker[j] != '<'
  }

  /**
   * Splits `s` = field + `marker` + rest, where the field holds no `<`:
   * the field ends where the first `<` of `s` says it must.
   */
  function CutAtLabel(s: string, marker: string): Option<Cut> {
    var k := FirstLt(s);
    if MarkupOffset <= k && HasPrefix(marker, s[k - MarkupOffset..]) then
      Some(Cut(s[..k - MarkupOffset], s[k - MarkupOffset + |marker|..]))
    else None
  }

  lemma CutAtLabelSplits(field: string, marker: string, rest: string)
    requires NoLt(field) && IsLabel(marker)
    ensures CutAtLabel(field + marker + rest, marker) == Some(Cut(field, rest))
  {
    var tail := marker + rest;
    var s := field + tail;
    assert field + marker + rest == s;
    assert FirstLt(s) == |field| + MarkupOffset by {
      var lead, markup := marker[..MarkupOffset], marker[MarkupOffset..] + rest;
      assert tail == lead + markup;
      FirstLtAfterPlainText(field, tail);
      FirstLtAfterPlainText(lead, markup);
    }
    assert s[|field|..] == tail;
    assert HasPrefix(marker, tail);
    assert s[..|field|] == field;
    assert tail[|marker|..] == rest;
    assert s[|field| + |marker|..] == rest;
  }

  /** Reads the merchant name, reporter, description and time back out of a ticket message. */
  function ParseTicketMessage(msg: string): Option<TicketFields> {
    if HasPrefix(Header, msg) then ParseFields(msg[|Header|..]) else None
  }

  /** The fields after the header: three escaped texts, each closed by the next label, and the time. */
  function ParseFields(body: string): Option<TicketFields> {
    match CutAtLabel(body, ReporterLabel)
    case None => None
    case Some(Cut(merchant, rest1)) =>
      match CutAtLabel(rest1, DescriptionLabel)
      case None => None
      case Some(Cut(user, rest2)) =>
        match CutAtLabel(rest2, CreatedLabel)
        case None => None
        case Some(Cut(description, createdAt)) =>
          Some(TicketFields(Unescape(merchant), Unescape(user), Unescape(description), createdAt))
  }

  lemma LabelsHoldMarkup()
    ensures IsLabel(ReporterLabel) && IsLabel(DescriptionLabel) && IsLabel(CreatedLabel)
  {
  }

  /** What follows the header splits back into its three escaped fields and the time. */
  lemma ParseEscapedFields(em: string, eu: string, ed: string, createdAt: string)
    requires NoLt(em) && NoLt(eu) && NoLt(ed)
    ensures ParseFields(em + ReporterLabel + eu + DescriptionLabel + ed + CreatedLabel + createdAt)
         == Some(TicketFields(Unescape(em), Unescape(eu), Unescape(ed), createdAt))
  {
    LabelsHoldMarkup();
    var rest2 := ed + CreatedLabel + createdAt;
    var rest1 := eu + DescriptionLabel + rest2;
    assert em + ReporterLabel + eu + DescriptionLabel + ed + CreatedLabel + createdAt == em + ReporterLabel + rest1;
    CutAtLabelSplits(em, ReporterLabel, rest1);
    CutAtLabelSplits(eu, DescriptionLabel, rest2);
    CutAtLabelSplits(ed, CreatedLabel, createdAt);
  }

  lemma ParseAfterHeader(body: string)
    ensures ParseTicketMessage(Header + body) == ParseFields(body)
  {
    assert (Header + body)[..|Header|] == Header;
    assert (Header + body)[|Header|..] == body;
  }

  /**
   * The ticket message carries the merchant name, the reporter and the
   * description, in that order, and no user text can forge the template's
   * markup: every field is recovered exactly from the message.
   */
  lemma HeaderThenBody<T>(h: seq<T>, a: seq<T>, b: seq<T>, c: seq<T>, d: seq<T>, e: seq<T>, f: seq<T>, g: seq<T>)
    ensures h + a + b + c + d + e + f + g == h + (a + b + c + d + e + f + g)
  {
  }

  lemma ParseFormatTicketMessage(merchantName: string, description: string, username: string, createdAt: string)
    ensures ParseTicketMessage(FormatTicketMessage(merchantName, description, username, createdAt))
         == Some(TicketFields(merchantName, username, description, createdAt))
  {
    var em, eu, ed := EscapeHtml(merchantName), EscapeHtml(username), EscapeHtml(description);
    var body := em + ReporterLabel + eu + DescriptionLabel + ed + CreatedLabel + createdAt;
    HeaderThenBody(Header, em, ReporterLabel, eu, DescriptionLabel, ed, CreatedLabel, createdAt);
    ParseAfterHeader(body);
    ParseEscapedFields(em, eu, ed, createdAt);
    UnescapeEscapeHtml(merchantName);
    UnescapeEscapeHtml(username);
    UnescapeEscapeHtml(description);
  }

  // ---------------------------------------------------------------------
  // Dispatch

  /** A send to the destination chat: a text message (with or without HTML parsing), a photo or a video. */
  datatype Outbound =
    | SendMessage(text: string, html: bool)
    | SendPhoto(fileId: string, caption: string)
    | SendVideo(fileId: string, caption: string)

  /** The send attempts of one dispatch, named for the oracle that decides which of them fail. */
  datatype SendStep = SendOfText | SendOfAttachment(index: nat) | SendOfWarning(index: nat)

  /** What a dispatch sent, and whether `createTicket` returned `true` (otherwise it threw "Failed to create ticket"). */
  datatype Dispatch = Dispatch(log: seq<Outbound>, created: bool)

  function Caption(username: string): string {
    "Attachment for ticket from @" + username
  }

  function WarningText(kind: string, username: string): string {
    "\U{26A0}\U{FE0F} Failed to send " + kind + " attachment for ticket from @" + username
  }

  /** The ticket text; `None` when a field is `undefined`, where `escapeHtml` would throw. */
  function TicketText(t: TicketData, createdAt: string): Option<string> {
    if t.merchantName.Some? && t.description.Some? && t.username.Some? then
      Some(FormatTicketMessage(t.merchantName.value, t.description.value, t.username.value, createdAt))
    else None
  }

  /** The send an attachment calls for: photos and videos by their own kind of send, anything else none. */
  function AttachmentSend(item: MediaItem, caption: string): Option<Outbound> {
    if item.kind == "photo" then Some(SendPhoto(item.fileId, caption))
    else if item.kind == "video" then Some(SendVideo(item.fileId, caption))
    else None
  }

  /**
   * The sends for the first `n` attachments, and whether the dispatch was
   * aborted: a failed attachment is followed by a plain-text warning, and
   * only a failure of that warning escapes the per-item recovery.
   */
  function AttachmentSends(media: seq<MediaItem>, username: string, fails: SendStep -> bool, n: nat): (seq<Outbound>, bool)
    requires n <= |media|
  {
    if n == 0 then ([], false)
    else
      var before := AttachmentSends(media, username, fails, n - 1);
      var log := before.0;
      if before.1 then (log, true)
      else
        var send := AttachmentSend(media[n - 1], Caption(username));
        if send.None? then (log, false)
        else if !fails(SendOfAttachment(n - 1)) then (log + [send.value], false)
        else (log + [send.value, SendMessage(WarningText(media[n - 1].kind, username), false)],
              fails(SendOfWarning(n - 1)))
  }

  /** `createTicket`: the ticket text first, then every attachment in draft order. */
  function CreateTicketSpec(t: TicketData, createdAt: string, fails: SendStep -> bool): Dispatch {
    match TicketText(t, createdAt)
    case None => Dispatch([], false)
    case Some(text) =>
      if fails(SendOfText) then Dispatch([SendMessage(text, true)], false)
      else
        var (log, aborted) := AttachmentSends(t.media, t.username.value, fails, |t.media|);
        Dispatch([SendMessage(text, true)] + log, !aborted)
  }

  /** Once a warning fails, nothing more is sent. */
  lemma {:induction false} AbortIsFinal(media: seq<MediaItem>, username: string, fails: SendStep -> bool, n: nat, m: nat)
    requires n <= m <= |media|
    requires AttachmentSends(media, username, fails, n).1
    ensures AttachmentSends(media, username, fails, m) == AttachmentSends(media, username, fails, n)
    decreases m
  {
    if m > n {
      AbortIsFinal(media, username, fails, n, m - 1);
    }
  }

  /** `createTicket`, one send at a time. */
  method CreateTicket(t: TicketData, createdAt: string, fails: SendStep -> bool) returns (log: seq<Outbound>, created: bool)
    ensures Dispatch(log, created) == CreateTicketSpec(t, createdAt, fails)
  {
    var text := TicketText(t, createdAt);
    if text.None? {
      // formatting throws before anything is sent
      return [], false;
    }
    if fails(SendOfText) {
      return [SendMessage(text.value, true)], false;
    }
    var sent, aborted := SendAttachments(t.media, t.username.value, fails);
    return [SendMessage(text.value, true)] + sent, !aborted;
  }

  /** The attachment loop of `createTicket`: each photo or video in turn, a warning after a failed send, and a stop when that warning fails too. */
  method SendAttachments(media: seq<MediaItem>, username: string, fails: SendStep -> bool) returns (sent: seq<Outbound>, aborted: bool)
    ensures (sent, aborted) == AttachmentSends(media, username, fails, |media|)
  {
    var caption := Caption(username);
    sent := [];
    var i := 0;
    while i < |media|
      invariant 0 <= i <= |media|
      invariant AttachmentSends(media, username, fails, i).0 == sent
      invariant !AttachmentSends(media, username, fails, i).1
    {
      var item := media[i];
      var send := AttachmentSend(item, caption);
      if send.Some? {
        sent := sent + [send.value];
        if fails(SendOfAttachment(i)) {
          sent := sent + [SendMessage(WarningText(item.kind, username), false)];
          if fails(SendOfWarning(i)) {
            assert AttachmentSends(media, username, fails, i + 1).0 == sent;
            AbortIsFinal(media, username, fails, i + 1, |media|);
            return sent, true;
          }
        }
      }
      i := i + 1;
    }
    return sent, false;
  }

  // ---------------------------------------------------------------------
  // Properties of a dispatch

  /** The sends an attachment list calls for when nothing fails: one per photo or video, in order. */
  function PlannedSends(media: seq<MediaItem>, caption: string): seq<Outbound> {
    if media == [] then []
    else PlannedSends(media[..|media| - 1], caption)
         + match AttachmentSend(media[|media| - 1], caption) case None => [] case Some(send) => [send]
  }

  /** The photo and video sends of a log, warnings dropped. */
  function MediaOnly(log: seq<Outbound>): seq<Outbound> {
    if log == [] then []
    else MediaOnly(log[..|log| - 1]) + if log[|log| - 1].SendMessage? then [] else [log[|log| - 1]]
  }

  function CountWarnings(log: seq<Outbound>): nat {
    if log == [] then 0
    else CountWarnings(log[..|log| - 1]) + if log[|log| - 1].SendMessage? then 1 else 0
  }

  /** How many of the first `n` attachments are photos or videos whose send fails. */
  function FailedAttachments(media: seq<MediaItem>, fails: SendStep -> bool, n: nat): nat
    requires n <= |media|
  {
    if n == 0 then 0
    else FailedAttachments(media, fails, n - 1)
         + if AttachmentSend(media[n - 1], "").Some? && fails(SendOfAttachment(n - 1)) then 1 else 0
  }

  /** Some photo or video among the first `n` attachments fails, and so does its warning. */
  predicate WarningFailsBefore(media: seq<MediaItem>, fails: SendStep -> bool, n: nat)
    requires n <= |media|
  {
    exists i :: 0 <= i < n && AttachmentSend(media[i], "").Some?
      && fails(SendOfAttachment(i)) && fails(SendOfWarning(i))
  }

  /** What attachment `i` contributes when its failure is recovered: its send, then, if that send fails, a warning naming its kind and the reporter. */
  function ItemSends(media: seq<MediaItem>, username: string, fails: SendStep -> bool, i: nat): seq<Outbound>
    requires i < |media|
  {
    match AttachmentSend(media[i], Caption(username))
    case None => []
    case Some(send) =>
      if fails(SendOfAttachment(i)) then [send, SendMessage(WarningText(media[i].kind, username), false)] else [send]
  }

  /** The contributions of the first `n` attachments, one after the other. */
  function RecoveredSends(media: seq<MediaItem>, username: string, fails: SendStep -> bool, n: nat): seq<Outbound>
    requires n <= |media|
  {
    if n == 0 then [] else RecoveredSends(media, username, fails, n - 1) + ItemSends(media, username, fails, n - 1)
  }

  /**
   * Every plain-text message of `log` is a warning right after the send of an
   * attachment that failed, naming that attachment's kind and the reporter.
   */
  predicate WarningsFollowFailedSends(log: seq<Outbound>, media: seq<MediaItem>, username: string, fails: SendStep -> bool) {
    forall j :: 0 <= j < |log| && log[j].SendMessage? ==>
      && 0 < j
      && exists i :: (0 <= i < |media| && fails(SendOfAttachment(i))
        && AttachmentSend(media[i], Caption(username)) == Some(log[j - 1])
        && log[j] == SendMessage(WarningText(media[i].kind, username), false))
  }

  lemma {:induction false} RecoveredSendsWarnings(media: seq<MediaItem>, username: string, fails: SendStep -> bool, n: nat)
    requires n <= |media|
    ensures WarningsFollowFailedSends(RecoveredSends(media, username, fails, n), media, username, fails)
  {
    if n > 0 {
      RecoveredSendsWarnings(media, username, fails, n - 1);
      var before, items := RecoveredSends(media, username, fails, n - 1), ItemSends(media, username, fails, n - 1);
      var log := before + items;
      forall j | 0 <= j < |log| && log[j].SendMessage?
        ensures 0 < j
        ensures exists i :: (0 <= i < |media| && fails(SendOfAttachment(i))
          && AttachmentSend(media[i], Caption(username)) == Some(log[j - 1])
          && log[j] == SendMessage(WarningText(media[i].kind, username), false))
      {
        if j < |before| {
          assert log[j] == before[j] && log[j - 1] == before[j - 1];
        } else {
          var send := AttachmentSend(media[n - 1], Caption(username)).value;
          assert items == [send] || items == [send, SendMessage(WarningText(media[n - 1].kind, username), false)];
          assert j == |before| + 1 && log[j - 1] == send;
        }
      }
    }
  }

  lemma MediaOnlyAppend(a: seq<Outbound>, b: seq<Outbound>)
    ensures MediaOnly(a + b) == MediaOnly(a) + MediaOnly(b)
    ensures CountWarnings(a + b) == CountWarnings(a) + CountWarnings(b)
    decreases |b|
  {
    if b == [] {
      assert a + b == a;
    } else {
      var b' := b[..|b| - 1];
      assert (a + b)[..|a + b| - 1] == a + b';
      MediaOnlyAppend(a, b');
    }
  }

  /**
   * Whatever fails, the attachments are tried in draft order; the log is
   * aborted exactly when an attachment's warning fails; and each failed
   * attachment is followed by one warning.
   */
  lemma AttachmentSendsFacts(media: seq<MediaItem>, username: string, fails: SendStep -> bool, n: nat)
    requires n <= |media|
    ensures AttachmentSends(media, username, fails, n).1 <==> WarningFailsBefore(media, fails, n)
    ensures !WarningFailsBefore(media, fails, n) ==>
      var log := AttachmentSends(media, username, fails, n).0;
      && MediaOnly(log) == PlannedSends(media[..n], Caption(username))
      && CountWarnings(log) == FailedAttachments(media, fails, n)
  {
    AttachmentSendsAborts(media, username, fails, n);
    AttachmentSendsCounts(media, username, fails, n);
  }

  /** The loop stops early exactly when some attachment's send and then its warning fail. */
  lemma {:induction false} AttachmentSendsAborts(media: seq<MediaItem>, username: string, fails: SendStep -> bool, n: nat)
    requires n <= |media|
    ensures AttachmentSends(media, username, fails, n).1 <==> WarningFailsBefore(media, fails, n)
  {
    if n > 0 {
      AttachmentSendsAborts(media, username, fails, n - 1);
      assert AttachmentSend(media[n - 1], "").Some? <==> AttachmentSend(media[n - 1], Caption(username)).Some?;
      if WarningFailsBefore(media, fails, n - 1) {
        var i :| 0 <= i < n - 1 && AttachmentSend(media[i], "").Some? && fails(SendOfAttachment(i)) && fails(SendOfWarning(i));
        assert WarningFailsBefore(media, fails, n);
      } else if WarningFailsBefore(media, fails, n) {
        var i :| 0 <= i < n && AttachmentSend(media[i], "").Some? && fails(SendOfAttachment(i)) && fails(SendOfWarning(i));
        assert i == n - 1;
      }
    }
  }

  /** Until the loop stops early, its log holds the planned sends in order and one warning per failed send. */
  lemma {:induction false} AttachmentSendsCounts(media: seq<MediaItem>, username: string, fails: SendStep -> bool, n: nat)
    requires n <= |media|
    ensures !AttachmentSends(media, username, fails, n).1 ==>
      var log := AttachmentSends(media, username, fails, n).0;
      && MediaOnly(log) == PlannedSends(media[..n], Caption(username))
      && CountWarnings(log) == FailedAttachments(media, fails, n)
  {
    if n > 0 && !AttachmentSends(media, username, fails, n).1 {
      AttachmentSendsCounts(media, username, fails, n - 1);
      var log := AttachmentSends(media, username, fails, n - 1).0;
      var item := media[n - 1];
      assert AttachmentSend(item, "").Some? <==> AttachmentSend(item, Caption(username)).Some?;
      assert media[..n][..n - 1] == media[..n - 1];
      match AttachmentSend(item, Caption(username))
      case None =>
      case Some(send) =>
        if !fails(SendOfAttachment(n - 1)) {
          MediaOnlyAppend(log, [send]);
          assert MediaOnly([send]) == MediaOnly([]) + [send];
        } else {
          var warning := SendMessage(WarningText(item.kind, username), false);
          MediaOnlyAppend(log, [send, warning]);
          assert [send, warning][..1] == [send];
          assert MediaOnly([send]) == MediaOnly([]) + [send];
          assert CountWarnings([send]) == 0;
        }
    }
  }

  /** Until a warning fails, the loop's log is each attachment's contribution in draft order. */
  lemma {:induction false} AttachmentSendsRecovered(media: seq<MediaItem>, username: string, fails: SendStep -> bool, n: nat)
    requires n <= |media|
    ensures !AttachmentSends(media, username, fails, n).1 ==>
      AttachmentSends(media, username, fails, n).0 == RecoveredSends(media, username, fails, n)
  {
    if n > 0 && !AttachmentSends(media, username, fails, n).1 {
      AttachmentSendsRecovered(media, username, fails, n - 1);
    }
  }

  /** The ticket text is the first thing sent; with a missing field nothing is sent and the dispatch fails. */
  lemma TicketTextFirst(t: TicketData, createdAt: string, fails: SendStep -> bool)
    ensures var d := CreateTicketSpec(t, createdAt, fails);
      if t.merchantName.Some? && t.description.Some? && t.username.Some? then
        d.log != [] && d.log[0] == SendMessage(FormatTicketMessage(t.merchantName.value, t.description.value, t.username.value, createdAt), true)
      else d == Dispatch([], false)
  {
  }

  /** A failed ticket text ends the dispatch: no attachment is sent and the dispatch fails. */
  lemma TicketTextFailureStopsDispatch(t: TicketData, createdAt: string, fails: SendStep -> bool)
    requires TicketText(t, createdAt).Some? && fails(SendOfText)
    ensures CreateTicketSpec(t, createdAt, fails) == Dispatch([SendMessage(TicketText(t, createdAt).value, true)], false)
  {
  }

  /** Without attachments, a dispatch is the ticket text alone. */
  lemma NoMediaSendsOneMessage(t: TicketData, createdAt: string, fails: SendStep -> bool)
    requires t.media == [] && TicketText(t, createdAt).Some? && !fails(SendOfText)
    ensures CreateTicketSpec(t, createdAt, fails) == Dispatch([SendMessage(TicketText(t, createdAt).value, true)], true)
  {
  }

  /**
   * A dispatch succeeds exactly when the fields are present, the ticket text
   * is delivered and no failed attachment's warning fails too; failed
   * attachments alone never stop the others, which all go out in draft order
   * after the text, each failure followed by one warning.
   */
  lemma CreateTicketOutcome(t: TicketData, createdAt: string, fails: SendStep -> bool)
    ensures var d := CreateTicketSpec(t, createdAt, fails);
      d.created <==> TicketText(t, createdAt).Some? && !fails(SendOfText) && !WarningFailsBefore(t.media, fails, |t.media|)
    ensures var d := CreateTicketSpec(t, createdAt, fails);
      d.created ==>
        && d.log[1..] == RecoveredSends(t.media, t.username.value, fails, |t.media|)
        && WarningsFollowFailedSends(d.log[1..], t.media, t.username.value, fails)
        && MediaOnly(d.log[1..]) == PlannedSends(t.media, Caption(t.username.value))
        && CountWarnings(d.log[1..]) == FailedAttachments(t.media, fails, |t.media|)
  {
    if TicketText(t, createdAt).Some? && !fails(SendOfText) {
      AttachmentSendsFacts(t.media, t.username.value, fails, |t.media|);
      AttachmentSendsRecovered(t.media, t.username.value, fails, |t.media|);
      RecoveredSendsWarnings(t.media, t.username.value, fails, |t.media|);
      assert t.media[..|t.media|] == t.media;
      var d := CreateTicketSpec(t, createdAt, fails);
      assert d.log[1..] == AttachmentSends(t.media, t.username.value, fails, |t.media|).0;
    }
  }

  // ---------------------------------------------------------------------
  // The dispatch as written, with its undefined logger

  /**
   * The attachment sends as the source writes them: the per-item catch first
   * calls `logger.error`, an identifier that is never defined, so the first
   * failed attachment throws a ReferenceError before its warning is sent and
   * ends the dispatch.
   */
  function AttachmentSendsAsWritten(media: seq<MediaItem>, username: string, fails: SendStep -> bool, n: nat): (seq<Outbound>, bool)
    requires n <= |media|
  {
    if n == 0 then ([], false)
    else
      var before := AttachmentSendsAsWritten(media, username, fails, n - 1);
      var log := before.0;
      if before.1 then (log, true)
      else
        var send := AttachmentSend(media[n - 1], Caption(username));
        if send.None? then (log, false)
        else (log + [send.value], fails(SendOfAttachment(n - 1)))
  }

  /** `createTicket` as written; the outer catch's `logger.error` throws too, so a failure escapes as a ReferenceError. */
  function CreateTicketAsWritten(t: TicketData, createdAt: string, fails: SendStep -> bool): Dispatch {
    match TicketText(t, createdAt)
    case None => Dispatch([], false)
    case Some(text) =>
      if fails(SendOfText) then Dispatch([SendMessage(text, true)], false)
      else
        var (log, aborted) := AttachmentSendsAsWritten(t.media, t.username.value, fails, |t.media|);
        Dispatch([SendMessage(text, true)] + log, !aborted)
  }

  lemma OneFailedPhotoSends(t: TicketData, fails: SendStep -> bool)
    requires t.username.Some? && |t.media| == 1 && t.media[0].kind == "photo"
    requires fails(SendOfAttachment(0)) && !fails(SendOfWarning(0))
    ensures var photo := SendPhoto(t.media[0].fileId, Caption(t.username.value));
      && AttachmentSendsAsWritten(t.media, t.username.value, fails, 1).0 == [photo]
      && AttachmentSendsAsWritten(t.media, t.username.value, fails, 1).1
      && AttachmentSends(t.media, t.username.value, fails, 1).0 == [photo, SendMessage(WarningText("photo", t.username.value), false)]
      && !AttachmentSends(t.media, t.username.value, fails, 1).1
  {
  }

  lemma WarningCounts(photo: Outbound, warning: Outbound)
    requires photo.SendPhoto? && warning.SendMessage?
    ensures CountWarnings([photo]) == 0 && CountWarnings([photo, warning]) == 1
  {
    assert [photo][..0] == [] && [photo, warning][..1] == [photo];
  }

  /**
   * One photo whose send fails: as written the dispatch fails with no
   * warning, while the per-item recovery the code sets up sends the warning
   * and creates the ticket.
   */
  lemma FailedAttachmentAbortsAsWritten(t: TicketData, createdAt: string, fails: SendStep -> bool)
    requires TicketText(t, createdAt).Some? && |t.media| == 1 && t.media[0].kind == "photo"
    requires !fails(SendOfText) && fails(SendOfAttachment(0)) && !fails(SendOfWarning(0))
    ensures var written := CreateTicketAsWritten(t, createdAt, fails);
      !written.created && |written.log| == 2 && CountWarnings(written.log[1..]) == 0
    ensures var intended := CreateTicketSpec(t, createdAt, fails);
      intended.created && |intended.log| == 3 && CountWarnings(intended.log[1..]) == 1
  {
    OneFailedPhotoSends(t, fails);
    var photo := SendPhoto(t.media[0].fileId, Caption(t.username.value));
    var warning := SendMessage(WarningText("photo", t.username.value), false);
    WarningCounts(photo, warning);
    var text := SendMessage(TicketText(t, createdAt).value, true);
    assert CreateTicketAsWritten(t, createdAt, fails).log == [text] + [photo];
    assert CreateTicketSpec(t, createdAt, fails).log == [text] + [photo, warning];
    assert ([text] + [photo])[1..] == [photo];
    assert ([text] + [photo, warning])[1..] == [photo, warning];
  }
}
