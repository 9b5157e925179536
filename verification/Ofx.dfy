/** The OFX 1.0.2 printer and parser of bank statements (ingestion statements.ts). */
module Ofx {
  import opened Text
  import opened Fingerprint

  datatype StatementTxn = StatementTxn(fitid: string, date: string, amount: string, description: string)

  /** A parsed transaction and the currency of its statement, when one is declared. */
  datatype Parsed = Parsed(txn: StatementTxn, currency: Option<string>)

  datatype ExportOptions = ExportOptions(
    bankId: string, acctId: string, acctType: string, currency: string, dtServer: Option<string>, ledgerBalance: string)

  // --- a document as the texts between its '<' characters ------------------------------------------------

  /** The text before the first '<', and then the text after each one. */
  function Split(text: string): (parts: seq<string>)
    ensures |parts| >= 1
  {
    if text == "" then [""]
    else
      var rest := Split(text[1..]);
      if text[0] == '<' then [""] + rest else [[text[0]] + rest[0]] + rest[1..]
  }

  /** Every search the parser makes starts at a '<', so these pieces are all it sees. */
  function Pieces(text: string): seq<string> {
    Split(text)[1..]
  }

  function Render(pieces: seq<string>): string {
    if pieces == [] then "" else "<" + pieces[0] + Render(pieces[1..])
  }

  lemma {:induction false} SplitAtFirst(a: string, b: string)
    requires Free(a, '<')
    ensures Split(a + "<" + b) == [a] + Split(b)
  {
    var text := a + "<" + b;
    if a == "" {
      assert text[1..] == b;
    } else {
      assert text[1..] == a[1..] + "<" + b;
      SplitAtFirst(a[1..], b);
      assert [a[0]] + a[1..] == a;
    }
  }

  lemma {:induction false} SplitWhole(a: string)
    requires Free(a, '<')
    ensures Split(a) == [a]
  {
    if a != "" {
      SplitWhole(a[1..]);
      assert [a[0]] + a[1..] == a;
    }
  }

  /** Splitting a rendered document gives its pieces back. */
  lemma {:induction false} SplitRendered(head: string, pieces: seq<string>)
    requires Free(head, '<') && AllFree(pieces, '<')
    ensures Split(head + Render(pieces)) == [head] + pieces
    decreases |pieces|
  {
    if pieces == [] {
      assert head + "" == head;
      SplitWhole(head);
    } else {
      SplitRendered(pieces[0], pieces[1..]);
      SplitAtFirst(head, pieces[0] + Render(pieces[1..]));
      assert head + Render(pieces) == head + "<" + (pieces[0] + Render(pieces[1..]));
      assert [head] + ([pieces[0]] + pieces[1..]) == [head] + pieces;
    }
  }

  // --- tags ---------------------------------------------------------------------------------------------------

  function Upper(c: char): char {
    if 'a' <= c <= 'z' then (c as int - 32) as char else c
  }

  /** The piece starts with the tag, in any case, closed by '>'. */
  predicate Is(piece: string, tag: string) {
    |piece| > |tag| && piece[|tag|] == '>' && forall i :: 0 <= i < |tag| ==> Upper(piece[i]) == tag[i]
  }

  /** What comes before the first carriage return or line feed. */
  function FirstLine(s: string): string {
    if s == "" || s[0] == '\r' || s[0] == '\n' then "" else [s[0]] + FirstLine(s[1..])
  }

  /** `ofxTag`: the value of the first piece with the tag. */
  function TagValue(block: seq<string>, tag: string): Option<string> {
    if block == [] then None
    else if Is(block[0], tag) then Some(Trim(FirstLine(block[0][|tag| + 1..])))
    else TagValue(block[1..], tag)
  }

  function Piece(tag: string, value: string): string {
    tag + ">" + value
  }

  predicate IsUpper(tag: string) {
    forall i :: 0 <= i < |tag| ==> Upper(tag[i]) == tag[i]
  }

  lemma PieceIsItsTag(tag: string, value: string)
    requires IsUpper(tag)
    ensures Is(Piece(tag, value), tag) && Piece(tag, value)[|tag| + 1..] == value
  {
  }

  /** Two tags that differ at some place are never confused, whatever follows them. */
  lemma PieceIsNot(tag: string, value: string, other: string, i: nat)
    requires i < |tag| && i < |other| && Upper(tag[i]) != other[i]
    ensures !Is(Piece(tag, value), other)
  {
    assert Piece(tag, value)[i] == tag[i];
  }

  /** A tag that goes on where the other ends is not the other. */
  lemma LongerTagIsNot(tag: string, value: string, other: string)
    requires |other| < |tag| && tag[|other|] != '>'
    ensures !Is(Piece(tag, value), other)
  {
    assert Piece(tag, value)[|other|] == tag[|other|];
  }

  // --- dates ---------------------------------------------------------------------------------------------------

  function Without(s: string, c: char): (r: string)
    ensures Free(r, c) && |r| <= |s|
    ensures Free(s, c) <==> r == s
  {
    if s == "" then ""
    else
      var rest := Without(s[1..], c);
      assert s == [s[0]] + s[1..];
      if s[0] == c then rest else [s[0]] + rest
  }

  function ToOfxDate(iso: string): string {
    Without(iso, '-')
  }

  function OfxDate(raw: Option<string>): Option<string> {
    if raw.None? || |raw.value| < 8 || !AllDigits(raw.value[..8]) then None
    else var d := raw.value; Some(d[..4] + "-" + d[4..6] + "-" + d[6..8])
  }

  /** YYYY-MM-DD. */
  predicate IsoDate(s: string) {
    && |s| == 10 && s[4] == '-' && s[7] == '-'
    && AllDigits(s[..4]) && AllDigits(s[5..7]) && AllDigits(s[8..])
  }

  lemma {:induction false} WithoutAppends(a: string, b: string, c: char)
    ensures Without(a + b, c) == Without(a, c) + Without(b, c)
  {
    if a == "" {
      assert a + b == b;
    } else {
      assert (a + b)[1..] == a[1..] + b;
      WithoutAppends(a[1..], b, c);
    }
  }

  lemma DateComesBack(s: string)
    requires IsoDate(s)
    ensures |ToOfxDate(s)| == 8 && AllDigits(ToOfxDate(s)) && OfxDate(Some(ToOfxDate(s))) == Some(s)
  {
    var y, m, d := s[..4], s[5..7], s[8..];
    assert Free(y, '-') && Free(m, '-') && Free(d, '-');
    assert s == y + "-" + m + "-" + d;
    WithoutAppends(y + "-" + m + "-", d, '-');
    WithoutAppends(y + "-" + m, "-", '-');
    WithoutAppends(y + "-", m, '-');
    WithoutAppends(y, "-", '-');
    assert Without("-", '-') == "";
    var raw := y + m + d;
    assert ToOfxDate(s) == raw;
    assert raw[..4] == y && raw[4..6] == m && raw[6..8] == d && raw[..8] == raw;
  }

  // --- parseOfx -------------------------------------------------------------------------------------------------

  const STMTTRN := "STMTTRN"
  const END_STMTTRN := "/STMTTRN"

  /** The pieces of a transaction: up to its end, or to the start of the next. */
  function Until(pieces: seq<string>): seq<string> {
    if pieces == [] || Is(pieces[0], STMTTRN) || Is(pieces[0], END_STMTTRN) then []
    else [pieces[0]] + Until(pieces[1..])
  }

  function Blocks(pieces: seq<string>): seq<seq<string>> {
    if pieces == [] then []
    else if Is(pieces[0], STMTTRN) then [Until(pieces[1..])] + Blocks(pieces[1..])
    else Blocks(pieces[1..])
  }

  predicate IsLetter(c: char) {
    'a' <= c <= 'z' || 'A' <= c <= 'Z'
  }

  /** Three letters after the first CURDEF that has them. */
  function CurrencyOf(pieces: seq<string>): Option<string> {
    if pieces == [] then None
    else if Is(pieces[0], "CURDEF") && |pieces[0]| >= 10
      && IsLetter(pieces[0][7]) && IsLetter(pieces[0][8]) && IsLetter(pieces[0][9])
    then Some(pieces[0][7..10])
    else CurrencyOf(pieces[1..])
  }

  const NO_DESCRIPTION := "(no description)"

  function Described(name: string, memo: string): string {
    if name != "" && memo != "" then name + " \U{2014} " + memo
    else if name + memo == "" then NO_DESCRIPTION
    else name + memo
  }

  /** One transaction, or nothing when it has no date or no amount. */
  function ParseBlock(block: seq<string>): Option<StatementTxn> {
    var date, amount := OfxDate(TagValue(block, "DTPOSTED")), TagValue(block, "TRNAMT");
    if date.None? || amount.None? then None
    else
      Some(StatementTxn(TagValue(block, "FITID").GetOr(date.value + "|" + amount.value), date.value,
                        Without(amount.value, ','),
                        Described(TagValue(block, "NAME").GetOr(""), TagValue(block, "MEMO").GetOr(""))))
  }

  function ParseBlocks(blocks: seq<seq<string>>, currency: Option<string>): seq<Parsed> {
    if blocks == [] then []
    else
      var last := ParseBlock(blocks[|blocks| - 1]);
      var front := ParseBlocks(blocks[..|blocks| - 1], currency);
      if last.None? then front else front + [Parsed(last.value, currency)]
  }

  method ParseOfx(text: string) returns (out: seq<Parsed>)
    ensures out == ParseBlocks(Blocks(Pieces(text)), CurrencyOf(Pieces(text)))
  {
    var pieces := Pieces(text);
    var currency := CurrencyOf(pieces);
    out := [];
    var blocks := Blocks(pieces);
    for i := 0 to |blocks|
      invariant out == ParseBlocks(blocks[..i], currency)
    {
      assert blocks[..i + 1][..i] == blocks[..i];
      var block := blocks[i];
      var date := OfxDate(TagValue(block, "DTPOSTED"));
      var amount := TagValue(block, "TRNAMT");
      if date.None? || amount.None? {
        continue;
      }
      var fitid := TagValue(block, "FITID").GetOr(date.value + "|" + amount.value);
      var description := Described(TagValue(block, "NAME").GetOr(""), TagValue(block, "MEMO").GetOr(""));
      out := out + [Parsed(StatementTxn(fitid, date.value, Without(amount.value, ','), description), currency)];
    }
    assert blocks[..|blocks|] == blocks;
  }

  // --- buildOfx -------------------------------------------------------------------------------------------------

  predicate IsSpecial(c: char) {
    c == '&' || c == '<' || c == '>'
  }

  function EscapeChar(c: char): string {
    if c == '&' then "&amp;" else if c == '<' then "&lt;" else if c == '>' then "&gt;" else [c]
  }

  predicate NoSpecial(s: string) {
    forall i :: 0 <= i < |s| ==> !IsSpecial(s[i])
  }

  function Escape(s: string): (r: string)
    ensures Free(r, '<') && |r| >= |s|
    ensures NoSpecial(s) ==> r == s
    ensures !NoSpecial(s) ==> |r| > |s|
  {
    if s == "" then "" else EscapeChar(s[0]) + Escape(s[1..])
  }

  function Truncated(s: string): string {
    if |s| <= 32 then s else s[..32]
  }

  function AmountType(amount: string): string {
    if Trim(amount) != "" && Trim(amount)[0] == '-' then "DEBIT" else "CREDIT"
  }

  /** The five tagged values of a transaction. */
  function Fields(t: StatementTxn): seq<string> {
    var amount := Trim(Without(t.amount, ','));
    [Piece("TRNTYPE", AmountType(amount)), Piece("DTPOSTED", ToOfxDate(t.date)), Piece("TRNAMT", amount),
     Piece("FITID", Escape(t.fitid)), Piece("NAME", Escape(Truncated(t.description)))]
  }

  function TxnPieces(txns: seq<StatementTxn>): seq<string> {
    if txns == [] then []
    else [Piece(STMTTRN, "")] + Fields(txns[0]) + [Piece(END_STMTTRN, "\n")] + TxnPieces(txns[1..])
  }

  function Earliest(txns: seq<StatementTxn>): string {
    if txns == [] then "19700101"
    else if |txns| == 1 then ToOfxDate(txns[0].date)
    else
      var rest := Earliest(txns[1..]);
      if SortsBefore(rest, ToOfxDate(txns[0].date)) then rest else ToOfxDate(txns[0].date)
  }

  function Latest(txns: seq<StatementTxn>): string {
    if txns == [] then "19700101"
    else if |txns| == 1 then ToOfxDate(txns[0].date)
    else
      var rest := Latest(txns[1..]);
      if SortsBefore(rest, ToOfxDate(txns[0].date)) then ToOfxDate(txns[0].date) else rest
  }

  function SignOn(dtServer: string): seq<string> {
    [Piece("OFX", ""), Piece("SIGNONMSGSRSV1", ""), Piece("SONRS", ""), Piece("STATUS", ""), Piece("CODE", "0"),
     Piece("SEVERITY", "INFO"), Piece("/STATUS", ""), Piece("DTSERVER", dtServer),
     Piece("LANGUAGE", "ENG"), Piece("/SONRS", ""), Piece("/SIGNONMSGSRSV1", "")]
  }

  function Response(currency: string): seq<string> {
    [Piece("BANKMSGSRSV1", ""), Piece("STMTTRNRS", ""), Piece("TRNUID", "1"), Piece("STATUS", ""), Piece("CODE", "0"),
     Piece("SEVERITY", "INFO"), Piece("/STATUS", ""), Piece("STMTRS", ""), Piece("CURDEF", currency)]
  }

  function AccountFrom(bankId: string, acctId: string, acctType: string, dtStart: string, dtEnd: string): seq<string> {
    [Piece("BANKACCTFROM", ""), Piece("BANKID", bankId), Piece("ACCTID", acctId), Piece("ACCTTYPE", acctType),
     Piece("/BANKACCTFROM", ""), Piece("BANKTRANLIST", ""), Piece("DTSTART", dtStart), Piece("DTEND", dtEnd)]
  }

  function EndLine(txns: seq<StatementTxn>): string {
    Latest(txns) + (if txns == [] then "\n\n" else "\n")
  }

  function Opening(txns: seq<StatementTxn>, o: ExportOptions): seq<string> {
    SignOn(o.dtServer.GetOr(Latest(txns) + "120000")) + Response(o.currency)
    + AccountFrom(Escape(o.bankId), Escape(o.acctId), o.acctType, Earliest(txns), EndLine(txns))
  }

  function Balance(balance: string, asOf: string): seq<string> {
    [Piece("/BANKTRANLIST", ""), Piece("LEDGERBAL", ""), Piece("BALAMT", balance), Piece("DTASOF", asOf),
     Piece("/LEDGERBAL", ""), Piece("/STMTRS", ""), Piece("/STMTTRNRS", ""), Piece("/BANKMSGSRSV1", ""), Piece("/OFX", "\n")]
  }

  function Closing(txns: seq<StatementTxn>, o: ExportOptions): seq<string> {
    Balance(Trim(o.ledgerBalance), Latest(txns))
  }

  function Lines(texts: seq<string>): string {
    if texts == [] then "" else texts[0] + "\n" + Lines(texts[1..])
  }

  const HEADER := ["OFXHEADER:100", "DATA:OFXSGML", "VERSION:102", "SECURITY:NONE", "ENCODING:USASCII",
                   "CHARSET:1252", "COMPRESSION:NONE", "OLDFILEUID:NONE", "NEWFILEUID:NONE", ""]

  function BuildOfx(txns: seq<StatementTxn>, o: ExportOptions): string {
    Lines(HEADER) + Render(Opening(txns, o) + TxnPieces(txns) + Closing(txns, o))
  }
}
