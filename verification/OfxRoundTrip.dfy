/** Printing a statement to OFX and parsing it back (ingestion statements.ts). */
module OfxRoundTrip {
  import opened Text
  import opened Fingerprint
  import opened Ofx

  // --- no fixed piece is mistaken for a transaction ------------------------------------------------------

  /** The piece does not open a transaction. */
  predicate Quiet(piece: string) {
    !Is(piece, STMTTRN)
  }

  ghost predicate AllQuiet(pieces: seq<string>) {
    forall i :: 0 <= i < |pieces| ==> Quiet(pieces[i])
  }

  /** STMTTRNRS, the response that holds the statement, is not STMTTRN. */
  lemma SimilarTagsAreQuiet(value: string)
    ensures Quiet(Piece("SIGNONMSGSRSV1", value)) && Quiet(Piece("SONRS", value)) && Quiet(Piece("STATUS", value))
    ensures Quiet(Piece("SEVERITY", value)) && Quiet(Piece("STMTRS", value)) && Quiet(Piece("STMTTRNRS", value))
  {
    PieceIsNot("SIGNONMSGSRSV1", value, STMTTRN, 1);
    PieceIsNot("SONRS", value, STMTTRN, 1);
    PieceIsNot("STATUS", value, STMTTRN, 2);
    PieceIsNot("SEVERITY", value, STMTTRN, 1);
    PieceIsNot("STMTRS", value, STMTTRN, 4);
    LongerTagIsNot("STMTTRNRS", value, STMTTRN);
  }

  lemma FirstLetterDecides(piece: string)
    requires piece != "" && Upper(piece[0]) != 'S'
    ensures Quiet(piece)
  {
    assert STMTTRN[0] == 'S';
  }

  lemma SignOnIsQuiet(dtServer: string)
    ensures AllQuiet(SignOn(dtServer))
  {
    var pieces := SignOn(dtServer);
    SimilarTagsAreQuiet("");
    SimilarTagsAreQuiet("INFO");
    forall i | 0 <= i < |pieces| ensures Quiet(pieces[i]) {
      if pieces[i][0] != 'S' {
        FirstLetterDecides(pieces[i]);
      }
    }
  }

  lemma ResponseIsQuiet(currency: string)
    ensures AllQuiet(Response(currency))
  {
    var pieces := Response(currency);
    SimilarTagsAreQuiet("");
    SimilarTagsAreQuiet("INFO");
    forall i | 0 <= i < |pieces| ensures Quiet(pieces[i]) {
      if pieces[i][0] != 'S' {
        FirstLetterDecides(pieces[i]);
      }
    }
  }

  lemma AccountFromIsQuiet(bankId: string, acctId: string, acctType: string, dtStart: string, dtEnd: string)
    ensures AllQuiet(AccountFrom(bankId, acctId, acctType, dtStart, dtEnd))
  {
    var pieces := AccountFrom(bankId, acctId, acctType, dtStart, dtEnd);
    forall i | 0 <= i < |pieces| ensures Quiet(pieces[i]) {
      FirstLetterDecides(pieces[i]);
    }
  }

  lemma OpeningIsQuiet(txns: seq<StatementTxn>, o: ExportOptions)
    ensures AllQuiet(Opening(txns, o))
  {
    SignOnIsQuiet(o.dtServer.GetOr(Latest(txns) + "120000"));
    ResponseIsQuiet(o.currency);
    AccountFromIsQuiet(Escape(o.bankId), Escape(o.acctId), o.acctType, Earliest(txns), EndLine(txns));
  }

  lemma ClosingIsQuiet(txns: seq<StatementTxn>, o: ExportOptions)
    ensures AllQuiet(Closing(txns, o))
  {
    var pieces := Closing(txns, o);
    forall i | 0 <= i < |pieces| ensures Quiet(pieces[i]) {
      FirstLetterDecides(pieces[i]);
    }
  }

  // --- the blocks of a printed statement ---------------------------------------------------------------------

  lemma {:induction false} QuietPrefix(prefix: seq<string>, rest: seq<string>)
    requires AllQuiet(prefix)
    ensures Blocks(prefix + rest) == Blocks(rest)
  {
    if prefix == [] {
      assert prefix + rest == rest;
    } else {
      assert (prefix + rest)[1..] == prefix[1..] + rest;
      assert Quiet(prefix[0]);
      QuietPrefix(prefix[1..], rest);
    }
  }

  /** Neither opens nor closes a transaction. */
  predicate IsField(piece: string) {
    Quiet(piece) && !Is(piece, END_STMTTRN)
  }

  ghost predicate AllFields(pieces: seq<string>) {
    forall i :: 0 <= i < |pieces| ==> IsField(pieces[i])
  }

  lemma {:induction false} UntilTheEnd(fields: seq<string>, end: string, rest: seq<string>)
    requires AllFields(fields) && Is(end, END_STMTTRN)
    ensures Until(fields + ([end] + rest)) == fields
  {
    if fields == [] {
      assert fields + ([end] + rest) == [end] + rest;
    } else {
      assert (fields + ([end] + rest))[1..] == fields[1..] + ([end] + rest);
      assert IsField(fields[0]);
      UntilTheEnd(fields[1..], end, rest);
    }
  }

  lemma FieldPiece(tag: string, value: string)
    requires tag != "" && Upper(tag[0]) != 'S' && Upper(tag[0]) != '/'
    ensures IsField(Piece(tag, value))
  {
    PieceIsNot(tag, value, STMTTRN, 0);
    PieceIsNot(tag, value, END_STMTTRN, 0);
  }

  lemma FieldsAreFields(t: StatementTxn)
    ensures AllFields(Fields(t))
  {
    var amount := Trim(Without(t.amount, ','));
    FieldPiece("TRNTYPE", AmountType(amount));
    FieldPiece("DTPOSTED", ToOfxDate(t.date));
    FieldPiece("TRNAMT", amount);
    FieldPiece("FITID", Escape(t.fitid));
    FieldPiece("NAME", Escape(Truncated(t.description)));
  }

  lemma OneTransaction(fields: seq<string>, rest: seq<string>)
    requires AllFields(fields)
    ensures Blocks([Piece(STMTTRN, "")] + fields + [Piece(END_STMTTRN, "\n")] + rest) == [fields] + Blocks(rest)
  {
    var start, end := Piece(STMTTRN, ""), Piece(END_STMTTRN, "\n");
    PieceIsItsTag(STMTTRN, "");
    PieceIsItsTag(END_STMTTRN, "\n");
    var all := [start] + fields + [end] + rest;
    assert all[1..] == fields + ([end] + rest);
    UntilTheEnd(fields, end, rest);
    FirstLetterDecides(end);
    QuietPrefix(fields + [end], rest);
    assert fields + ([end] + rest) == fields + [end] + rest;
    assert all[0] == start;
  }

  function AllFieldsOf(txns: seq<StatementTxn>): (r: seq<seq<string>>)
    ensures |r| == |txns| && forall i :: 0 <= i < |r| ==> r[i] == Fields(txns[i])
  {
    seq(|txns|, i requires 0 <= i < |txns| => Fields(txns[i]))
  }

  /** Lists of fields, each between its transaction's brackets. */
  function Bracketed(lists: seq<seq<string>>): seq<string> {
    if lists == [] then []
    else [Piece(STMTTRN, "")] + lists[0] + [Piece(END_STMTTRN, "\n")] + Bracketed(lists[1..])
  }

  lemma {:induction false} BlocksOfBracketed(lists: seq<seq<string>>, closing: seq<string>)
    requires AllQuiet(closing) && forall i :: 0 <= i < |lists| ==> AllFields(lists[i])
    ensures Blocks(Bracketed(lists) + closing) == lists
  {
    if lists == [] {
      assert Bracketed(lists) + closing == closing + [];
      QuietPrefix(closing, []);
    } else {
      var rest := Bracketed(lists[1..]) + closing;
      assert Bracketed(lists) + closing == [Piece(STMTTRN, "")] + lists[0] + [Piece(END_STMTTRN, "\n")] + rest;
      OneTransaction(lists[0], rest);
      BlocksOfBracketed(lists[1..], closing);
    }
  }

  lemma {:induction false} TransactionsAreBracketed(txns: seq<StatementTxn>)
    ensures TxnPieces(txns) == Bracketed(AllFieldsOf(txns))
  {
    if txns != [] {
      assert AllFieldsOf(txns)[1..] == AllFieldsOf(txns[1..]);
      TransactionsAreBracketed(txns[1..]);
    }
  }

  lemma BlocksOfTransactions(txns: seq<StatementTxn>, closing: seq<string>)
    requires AllQuiet(closing)
    ensures Blocks(TxnPieces(txns) + closing) == AllFieldsOf(txns)
  {
    TransactionsAreBracketed(txns);
    forall i | 0 <= i < |txns| ensures AllFields(AllFieldsOf(txns)[i]) {
      FieldsAreFields(txns[i]);
    }
    BlocksOfBracketed(AllFieldsOf(txns), closing);
  }

  // --- the values of a printed transaction ----------------------------------------------------------------------

  lemma {:induction false} NthTag(block: seq<string>, tag: string, n: nat)
    requires n < |block| && Is(block[n], tag) && forall k :: 0 <= k < n ==> !Is(block[k], tag)
    ensures TagValue(block, tag) == Some(Trim(FirstLine(block[n][|tag| + 1..])))
  {
    if n > 0 {
      assert block[1..][n - 1] == block[n];
      NthTag(block[1..], tag, n - 1);
    }
  }

  lemma {:induction false} NoSuchTag(block: seq<string>, tag: string)
    requires forall k :: 0 <= k < |block| ==> !Is(block[k], tag)
    ensures TagValue(block, tag) == None
  {
    if block != [] {
      NoSuchTag(block[1..], tag);
    }
  }

  /** What the parser makes of a printed value. */
  function ReadBack(value: string): string {
    Trim(FirstLine(value))
  }

  function Assembled(fitid: string, date: Option<string>, amount: string, description: string): Option<StatementTxn> {
    if date.None? then None else Some(StatementTxn(fitid, date.value, amount, description))
  }

  function DescriptionImage(d: string, none: string): string {
    var name := ReadBack(Escape(Truncated(d)));
    if name == "" then none else name
  }

  /** The transaction a printed one parses to, if any. */
  function Image(t: StatementTxn): Option<StatementTxn> {
    Assembled(ReadBack(Escape(t.fitid)), OfxDate(Some(ReadBack(ToOfxDate(t.date)))),
              Without(ReadBack(Trim(Without(t.amount, ','))), ','), DescriptionImage(t.description, NO_DESCRIPTION))
  }

  /** The tagged values in the order they are printed. */
  function Printed(a: string, d: string, m: string, f: string, n: string): seq<string> {
    [Piece("TRNTYPE", a), Piece("DTPOSTED", d), Piece("TRNAMT", m), Piece("FITID", f), Piece("NAME", n)]
  }

  lemma DateAndAmount(a: string, d: string, m: string, f: string, n: string)
    ensures TagValue(Printed(a, d, m, f, n), "DTPOSTED") == Some(ReadBack(d))
    ensures TagValue(Printed(a, d, m, f, n), "TRNAMT") == Some(ReadBack(m))
  {
    var block := Printed(a, d, m, f, n);
    PieceIsNot("TRNTYPE", a, "DTPOSTED", 0);
    PieceIsItsTag("DTPOSTED", d);
    NthTag(block, "DTPOSTED", 1);
    PieceIsNot("TRNTYPE", a, "TRNAMT", 3);
    PieceIsNot("DTPOSTED", d, "TRNAMT", 0);
    PieceIsItsTag("TRNAMT", m);
    NthTag(block, "TRNAMT", 2);
  }

  lemma IdValue(a: string, d: string, m: string, f: string, n: string)
    ensures TagValue(Printed(a, d, m, f, n), "FITID") == Some(ReadBack(f))
  {
    PieceIsNot("TRNTYPE", a, "FITID", 0);
    PieceIsNot("DTPOSTED", d, "FITID", 0);
    PieceIsNot("TRNAMT", m, "FITID", 0);
    PieceIsItsTag("FITID", f);
    NthTag(Printed(a, d, m, f, n), "FITID", 3);
  }

  lemma NameAndMemo(a: string, d: string, m: string, f: string, n: string)
    ensures TagValue(Printed(a, d, m, f, n), "NAME") == Some(ReadBack(n))
    ensures TagValue(Printed(a, d, m, f, n), "MEMO") == None
  {
    var block := Printed(a, d, m, f, n);
    PieceIsNot("TRNTYPE", a, "NAME", 0);
    PieceIsNot("DTPOSTED", d, "NAME", 0);
    PieceIsNot("TRNAMT", m, "NAME", 0);
    PieceIsNot("FITID", f, "NAME", 0);
    PieceIsItsTag("NAME", n);
    NthTag(block, "NAME", 4);
    PieceIsNot("TRNTYPE", a, "MEMO", 0);
    PieceIsNot("DTPOSTED", d, "MEMO", 0);
    PieceIsNot("TRNAMT", m, "MEMO", 0);
    PieceIsNot("FITID", f, "MEMO", 0);
    PieceIsNot("NAME", n, "MEMO", 0);
    NoSuchTag(block, "MEMO");
  }

  lemma PrintedBlockParses(t: StatementTxn)
    ensures ParseBlock(Fields(t)) == Image(t)
  {
    var amount := Trim(Without(t.amount, ','));
    var a, d, f, n := AmountType(amount), ToOfxDate(t.date), Escape(t.fitid), Escape(Truncated(t.description));
    assert Fields(t) == Printed(a, d, amount, f, n);
    DateAndAmount(a, d, amount, f, n);
    IdValue(a, d, amount, f, n);
    NameAndMemo(a, d, amount, f, n);
    assert ReadBack(n) + "" == ReadBack(n);
  }

  /** The images of the transactions that have one, in order. */
  function Images(txns: seq<StatementTxn>, currency: Option<string>): seq<Parsed> {
    if txns == [] then []
    else
      var last, front := Image(txns[|txns| - 1]), Images(txns[..|txns| - 1], currency);
      if last.None? then front else front + [Parsed(last.value, currency)]
  }

  lemma {:induction false} ParsedImages(txns: seq<StatementTxn>, currency: Option<string>)
    ensures ParseBlocks(AllFieldsOf(txns), currency) == Images(txns, currency)
  {
    if txns != [] {
      assert AllFieldsOf(txns)[..|txns| - 1] == AllFieldsOf(txns[..|txns| - 1]);
      ParsedImages(txns[..|txns| - 1], currency);
      PrintedBlockParses(txns[|txns| - 1]);
    }
  }

  // --- the document ---------------------------------------------------------------------------------------------------

  /** Nothing that is printed unescaped opens a tag. */
  predicate Plain(txns: seq<StatementTxn>, o: ExportOptions) {
    && Free(o.currency, '<') && Free(o.acctType, '<') && Free(o.ledgerBalance, '<')
    && (o.dtServer.Some? ==> Free(o.dtServer.value, '<'))
    && forall t :: t in txns ==> Free(t.date, '<') && Free(t.amount, '<')
  }

  lemma {:induction false} TrimStaysFree(s: string, c: char)
    requires Free(s, c)
    ensures Free(TrimStart(s), c) && Free(TrimEnd(s), c)
    decreases |s|
  {
    if s != "" {
      TrimStaysFree(s[1..], c);
      TrimStaysFree(s[..|s| - 1], c);
    }
  }

  lemma {:induction false} WithoutStaysFree(s: string, c: char, d: char)
    requires Free(s, d)
    ensures Free(Without(s, c), d)
  {
    if s != "" {
      WithoutStaysFree(s[1..], c, d);
    }
  }

  lemma FieldsAreFree(t: StatementTxn)
    requires Free(t.date, '<') && Free(t.amount, '<')
    ensures AllFree(Fields(t), '<')
  {
    WithoutStaysFree(t.date, '-', '<');
    WithoutStaysFree(t.amount, ',', '<');
    var amount := Without(t.amount, ',');
    TrimStaysFree(amount, '<');
    TrimStaysFree(TrimStart(amount), '<');
    PieceIsFree("TRNTYPE", AmountType(Trim(amount)));
    PieceIsFree("DTPOSTED", ToOfxDate(t.date));
    PieceIsFree("TRNAMT", Trim(amount));
    PieceIsFree("FITID", Escape(t.fitid));
    PieceIsFree("NAME", Escape(Truncated(t.description)));
  }

  lemma PieceIsFree(tag: string, value: string)
    requires Free(tag, '<') && Free(value, '<')
    ensures Free(Piece(tag, value), '<')
  {
  }

  lemma AppendedFree(a: seq<string>, b: seq<string>)
    requires AllFree(a, '<') && AllFree(b, '<')
    ensures AllFree(a + b, '<')
  {
  }

  lemma BracketsAreFree()
    ensures AllFree([Piece(STMTTRN, "")], '<') && AllFree([Piece(END_STMTTRN, "\n")], '<')
  {
    PieceIsFree(STMTTRN, "");
    PieceIsFree(END_STMTTRN, "\n");
  }

  lemma FourFree(a: seq<string>, b: seq<string>, c: seq<string>, d: seq<string>)
    requires AllFree(a, '<') && AllFree(b, '<') && AllFree(c, '<') && AllFree(d, '<')
    ensures AllFree(a + b + c + d, '<')
  {
    AppendedFree(a, b);
    AppendedFree(a + b, c);
    AppendedFree(a + b + c, d);
  }

  lemma {:induction false} TxnPiecesAreFree(txns: seq<StatementTxn>)
    requires forall t :: t in txns ==> Free(t.date, '<') && Free(t.amount, '<')
    ensures AllFree(TxnPieces(txns), '<')
  {
    if txns != [] {
      FieldsAreFree(txns[0]);
      TxnPiecesAreFree(txns[1..]);
      BracketsAreFree();
      FourFree([Piece(STMTTRN, "")], Fields(txns[0]), [Piece(END_STMTTRN, "\n")], TxnPieces(txns[1..]));
    }
  }

  lemma {:induction false} BoundsAreFree(txns: seq<StatementTxn>)
    requires forall t :: t in txns ==> Free(t.date, '<')
    ensures Free(Earliest(txns), '<') && Free(Latest(txns), '<')
  {
    if txns != [] {
      WithoutStaysFree(txns[0].date, '-', '<');
      if |txns| > 1 {
        BoundsAreFree(txns[1..]);
      }
    }
  }

  lemma SignOnIsFree(dtServer: string)
    requires Free(dtServer, '<')
    ensures AllFree(SignOn(dtServer), '<')
  {
    PieceIsFree("OFX", "");
    PieceIsFree("SIGNONMSGSRSV1", "");
    PieceIsFree("SONRS", "");
    PieceIsFree("STATUS", "");
    PieceIsFree("CODE", "0");
    PieceIsFree("SEVERITY", "INFO");
    PieceIsFree("/STATUS", "");
    PieceIsFree("DTSERVER", dtServer);
    PieceIsFree("LANGUAGE", "ENG");
    PieceIsFree("/SONRS", "");
    PieceIsFree("/SIGNONMSGSRSV1", "");
  }

  lemma ResponseIsFree(currency: string)
    requires Free(currency, '<')
    ensures AllFree(Response(currency), '<')
  {
    PieceIsFree("BANKMSGSRSV1", "");
    PieceIsFree("STMTTRNRS", "");
    PieceIsFree("TRNUID", "1");
    PieceIsFree("STATUS", "");
    PieceIsFree("CODE", "0");
    PieceIsFree("SEVERITY", "INFO");
    PieceIsFree("/STATUS", "");
    PieceIsFree("STMTRS", "");
    PieceIsFree("CURDEF", currency);
  }

  lemma AccountFromIsFree(bankId: string, acctId: string, acctType: string, dtStart: string, dtEnd: string)
    requires Free(bankId, '<') && Free(acctId, '<') && Free(acctType, '<') && Free(dtStart, '<') && Free(dtEnd, '<')
    ensures AllFree(AccountFrom(bankId, acctId, acctType, dtStart, dtEnd), '<')
  {
    PieceIsFree("BANKACCTFROM", "");
    PieceIsFree("BANKID", bankId);
    PieceIsFree("ACCTID", acctId);
    PieceIsFree("ACCTTYPE", acctType);
    PieceIsFree("/BANKACCTFROM", "");
    PieceIsFree("BANKTRANLIST", "");
    PieceIsFree("DTSTART", dtStart);
    PieceIsFree("DTEND", dtEnd);
  }

  lemma BalanceIsFree(balance: string, asOf: string)
    requires Free(balance, '<') && Free(asOf, '<')
    ensures AllFree(Balance(balance, asOf), '<')
  {
    PieceIsFree("/BANKTRANLIST", "");
    PieceIsFree("LEDGERBAL", "");
    PieceIsFree("BALAMT", balance);
    PieceIsFree("DTASOF", asOf);
    PieceIsFree("/LEDGERBAL", "");
    PieceIsFree("/STMTRS", "");
    PieceIsFree("/STMTTRNRS", "");
    PieceIsFree("/BANKMSGSRSV1", "");
    PieceIsFree("/OFX", "\n");
  }

  lemma {:induction false} LinesAreFree(texts: seq<string>)
    requires AllFree(texts, '<')
    ensures Free(Lines(texts), '<')
  {
    if texts != [] {
      LinesAreFree(texts[1..]);
    }
  }

  lemma HeaderIsFree()
    ensures AllFree(HEADER, '<')
  {
  }

  lemma OpeningIsFree(txns: seq<StatementTxn>, o: ExportOptions)
    requires Plain(txns, o)
    ensures AllFree(Opening(txns, o), '<')
  {
    BoundsAreFree(txns);
    var account := AccountFrom(Escape(o.bankId), Escape(o.acctId), o.acctType, Earliest(txns), EndLine(txns));
    SignOnIsFree(o.dtServer.GetOr(Latest(txns) + "120000"));
    ResponseIsFree(o.currency);
    AccountFromIsFree(Escape(o.bankId), Escape(o.acctId), o.acctType, Earliest(txns), EndLine(txns));
    AppendedFree(SignOn(o.dtServer.GetOr(Latest(txns) + "120000")), Response(o.currency));
    AppendedFree(SignOn(o.dtServer.GetOr(Latest(txns) + "120000")) + Response(o.currency), account);
  }

  lemma ClosingIsFree(txns: seq<StatementTxn>, o: ExportOptions)
    requires Plain(txns, o)
    ensures AllFree(Closing(txns, o), '<')
  {
    BoundsAreFree(txns);
    TrimStaysFree(o.ledgerBalance, '<');
    TrimStaysFree(TrimStart(o.ledgerBalance), '<');
    BalanceIsFree(Trim(o.ledgerBalance), Latest(txns));
  }

  /** For every statement whose unescaped texts open no tag, parsing the print gives exactly the images. */
  lemma ParsingThePrintGivesTheImages(txns: seq<StatementTxn>, o: ExportOptions)
    requires Plain(txns, o)
    ensures var pieces := Pieces(BuildOfx(txns, o));
            ParseBlocks(Blocks(pieces), CurrencyOf(pieces)) == Images(txns, CurrencyOf(pieces))
  {
    HeaderIsFree();
    LinesAreFree(HEADER);
    OpeningIsFree(txns, o);
    ClosingIsFree(txns, o);
    OpeningIsQuiet(txns, o);
    ClosingIsQuiet(txns, o);
    DocumentBlocks(Lines(HEADER), Opening(txns, o), txns, Closing(txns, o));
    ParsedImages(txns, CurrencyOf(Pieces(BuildOfx(txns, o))));
  }

  lemma DocumentBlocks(head: string, opening: seq<string>, txns: seq<StatementTxn>, closing: seq<string>)
    requires Free(head, '<') && AllFree(opening, '<') && AllFree(closing, '<')
    requires AllQuiet(opening) && AllQuiet(closing)
    requires forall t :: t in txns ==> Free(t.date, '<') && Free(t.amount, '<')
    ensures Blocks(Pieces(head + Render(opening + TxnPieces(txns) + closing))) == AllFieldsOf(txns)
  {
    TxnPiecesAreFree(txns);
    AppendedFree(opening, TxnPieces(txns));
    AppendedFree(opening + TxnPieces(txns), closing);
    PiecesComeBack(head, opening + TxnPieces(txns) + closing);
    FramedBlocks(opening, txns, closing);
  }

  lemma PiecesComeBack(head: string, pieces: seq<string>)
    requires Free(head, '<') && AllFree(pieces, '<')
    ensures Pieces(head + Render(pieces)) == pieces
  {
    SplitRendered(head, pieces);
  }

  lemma FramedBlocks(opening: seq<string>, txns: seq<StatementTxn>, closing: seq<string>)
    requires AllQuiet(opening) && AllQuiet(closing)
    ensures Blocks(opening + TxnPieces(txns) + closing) == AllFieldsOf(txns)
  {
    assert opening + TxnPieces(txns) + closing == opening + (TxnPieces(txns) + closing);
    QuietPrefix(opening, TxnPieces(txns) + closing);
    BlocksOfTransactions(txns, closing);
  }

  // --- which transactions come back as they were ------------------------------------------------------------------------

  predicate OneLine(s: string) {
    Free(s, '\r') && Free(s, '\n')
  }

  lemma {:induction false} FirstLineOfOne(s: string)
    ensures OneLine(FirstLine(s)) && |FirstLine(s)| <= |s|
    ensures OneLine(s) <==> FirstLine(s) == s
  {
    if s != "" {
      FirstLineOfOne(s[1..]);
      assert s == [s[0]] + s[1..];
    }
  }

  lemma {:induction false} TrimShortens(s: string)
    ensures Trimmed(Trim(s)) && |Trim(s)| <= |s|
    ensures forall c :: Free(s, c) ==> Free(Trim(s), c)
  {
    TrimStartShortens(s);
    TrimEndShortens(TrimStart(s));
  }

  lemma {:induction false} TrimStartShortens(s: string)
    ensures |TrimStart(s)| <= |s| && (TrimStart(s) != "" ==> !IsSpace(TrimStart(s)[0]))
    ensures forall c :: Free(s, c) ==> Free(TrimStart(s), c)
  {
    if s != "" && IsSpace(s[0]) {
      TrimStartShortens(s[1..]);
      assert forall c :: Free(s, c) ==> Free(s[1..], c);
    }
  }

  lemma {:induction false} TrimEndShortens(s: string)
    ensures |TrimEnd(s)| <= |s| && (TrimEnd(s) != "" ==> !IsSpace(TrimEnd(s)[|TrimEnd(s)| - 1]))
    ensures TrimEnd(s) != "" ==> TrimEnd(s)[0] == s[0]
    ensures forall c :: Free(s, c) ==> Free(TrimEnd(s), c)
  {
    if s != "" && IsSpace(s[|s| - 1]) {
      TrimEndShortens(s[..|s| - 1]);
      assert forall c :: Free(s, c) ==> Free(s[..|s| - 1], c);
    }
  }

  /** Reading a value back gives the value exactly when it is trimmed and on one line. */
  lemma ReadBackIffTidy(s: string)
    ensures |ReadBack(s)| <= |s| && Trimmed(ReadBack(s)) && OneLine(ReadBack(s))
    ensures ReadBack(s) == s <==> Trimmed(s) && OneLine(s)
  {
    FirstLineOfOne(s);
    TrimShortens(FirstLine(s));
    if Trimmed(s) && OneLine(s) {
      TrimKeepsTrimmed(s);
    }
  }

  /** An escaped text reads back as itself exactly when there is nothing to escape and nothing to trim. */
  lemma EscapedReadsBackIffClean(s: string)
    ensures ReadBack(Escape(s)) == s <==> NoSpecial(s) && Trimmed(s) && OneLine(s)
  {
    ReadBackIffTidy(Escape(s));
    if ReadBack(Escape(s)) == s && !NoSpecial(s) {
      TidyEscape(s);
    }
  }

  lemma {:induction false} EscapeOneLine(s: string)
    ensures OneLine(s) ==> OneLine(Escape(s))
  {
    if s != "" {
      EscapeOneLine(s[1..]);
      assert OneLine(s) ==> OneLine(s[1..]);
    }
  }

  /** Escaping leaves the ends of a trimmed text trimmed, so nothing makes up for what escaping adds. */
  lemma TidyEscape(s: string)
    requires Trimmed(s) && OneLine(s) && s != ""
    ensures ReadBack(Escape(s)) == Escape(s)
  {
    EscapeOneLine(s);
    EscapeEnds(s);
    ReadBackIffTidy(Escape(s));
  }

  lemma {:induction false} EscapeEnds(s: string)
    requires s != ""
    ensures Escape(s) != ""
    ensures !IsSpace(s[0]) ==> !IsSpace(Escape(s)[0])
    ensures !IsSpace(s[|s| - 1]) ==> !IsSpace(Escape(s)[|Escape(s)| - 1])
  {
    if |s| > 1 {
      EscapeEnds(s[1..]);
    } else {
      assert Escape(s[1..]) == "";
      assert Escape(s) == EscapeChar(s[0]);
    }
  }

  /** A transaction the export can carry. */
  predicate Exportable(t: StatementTxn) {
    && NoSpecial(t.fitid) && Trimmed(t.fitid) && OneLine(t.fitid)
    && IsoDate(t.date)
    && Free(t.amount, ',') && Trimmed(t.amount) && OneLine(t.amount)
    && 1 <= |t.description| && NoSpecial(t.description) && Trimmed(t.description) && OneLine(t.description)
  }

  lemma {:induction false} DigitsAreTidy(s: string)
    requires AllDigits(s)
    ensures Trimmed(s) && OneLine(s)
  {
  }

  lemma DateImageIffIso(s: string)
    ensures OfxDate(Some(ReadBack(ToOfxDate(s)))) == Some(s) <==> IsoDate(s)
  {
    if IsoDate(s) {
      DateComesBack(s);
      DigitsAreTidy(ToOfxDate(s));
      ReadBackIffTidy(ToOfxDate(s));
    } else {
      OfxDateIsIso(ReadBack(ToOfxDate(s)));
    }
  }

  lemma OfxDateIsIso(raw: string)
    ensures OfxDate(Some(raw)).Some? ==> IsoDate(OfxDate(Some(raw)).value)
  {
    if OfxDate(Some(raw)).Some? {
      var d := OfxDate(Some(raw)).value;
      assert d[..4] == raw[..4] && d[5..7] == raw[4..6] && d[8..] == raw[6..8];
      assert forall i :: 0 <= i < 8 ==> raw[i] == raw[..8][i];
    }
  }

  lemma AmountImageIffPlain(s: string)
    ensures Without(ReadBack(Trim(Without(s, ','))), ',') == s <==> Free(s, ',') && Trimmed(s) && OneLine(s)
  {
    var bare := Without(s, ',');
    TrimShortens(bare);
    ReadBackIffTidy(Trim(bare));
    ReadBackFree(Trim(bare), ',');
    if Free(s, ',') && Trimmed(s) && OneLine(s) {
      TrimKeepsTrimmed(s);
    }
  }

  lemma ReadBackFree(s: string, c: char)
    requires Free(s, c)
    ensures Free(ReadBack(s), c)
  {
    FirstLineFree(s, c);
    TrimShortens(FirstLine(s));
  }

  lemma {:induction false} FirstLineFree(s: string, c: char)
    requires Free(s, c)
    ensures Free(FirstLine(s), c)
  {
    if s != "" {
      FirstLineFree(s[1..], c);
    }
  }

  /**
   * Among transactions whose description fits in 32 characters, exactly the exportable ones come back
   * as they were.
   */
  lemma ComesBackIffExportable(t: StatementTxn)
    requires |t.description| <= 32
    ensures Image(t) == Some(t) <==> Exportable(t)
  {
    EscapedReadsBackIffClean(t.fitid);
    DateImageIffIso(t.date);
    AmountImageIffPlain(t.amount);
    DescriptionImageIffClean(t.description);
    AssembledIs(ReadBack(Escape(t.fitid)), OfxDate(Some(ReadBack(ToOfxDate(t.date)))),
                Without(ReadBack(Trim(Without(t.amount, ','))), ','), DescriptionImage(t.description, NO_DESCRIPTION), t);
  }

  lemma AssembledIs(fitid: string, date: Option<string>, amount: string, description: string, t: StatementTxn)
    ensures Assembled(fitid, date, amount, description) == Some(t) <==>
            fitid == t.fitid && date == Some(t.date) && amount == t.amount && description == t.description
  {
  }

  lemma DescriptionImageIffClean(d: string)
    requires |d| <= 32
    ensures DescriptionImage(d, NO_DESCRIPTION) == d <==> d != "" && NoSpecial(d) && Trimmed(d) && OneLine(d)
  {
    NoDescriptionIsClean();
    EscapedReadsBackIffClean(NO_DESCRIPTION);
    EscapedReadsBackIffClean(d);
    DescriptionFallsBack(d, NO_DESCRIPTION);
  }

  lemma DescriptionFallsBack(d: string, none: string)
    requires |d| <= 32 && none != "" && ReadBack(Escape(none)) == none
    ensures DescriptionImage(d, none) == d <==> d != "" && ReadBack(Escape(d)) == d
  {
  }

  lemma NoDescriptionIsClean()
    ensures NoSpecial(NO_DESCRIPTION) && Trimmed(NO_DESCRIPTION) && OneLine(NO_DESCRIPTION) && NO_DESCRIPTION != ""
  {
  }

  /** The transactions with the statement's currency. */
  function WithCurrency(txns: seq<StatementTxn>, currency: Option<string>): (r: seq<Parsed>)
    ensures |r| == |txns| && forall i :: 0 <= i < |r| ==> r[i] == Parsed(txns[i], currency)
  {
    if txns == [] then []
    else WithCurrency(txns[..|txns| - 1], currency) + [Parsed(txns[|txns| - 1], currency)]
  }

  lemma {:induction false} ImagesAreSame(txns: seq<StatementTxn>, currency: Option<string>)
    requires forall t :: t in txns ==> Image(t) == Some(t)
    ensures Images(txns, currency) == WithCurrency(txns, currency)
  {
    if txns != [] {
      var front, last := txns[..|txns| - 1], txns[|txns| - 1];
      ImagesAreSame(front, currency);
      assert Image(last) == Some(last);
    }
  }

  /** The round trip: printing and parsing returns every transaction, in order, none added and none lost. */
  lemma OfxRoundTrips(txns: seq<StatementTxn>, o: ExportOptions)
    requires Plain(txns, o) && forall t :: t in txns ==> Exportable(t) && |t.description| <= 32
    ensures var pieces := Pieces(BuildOfx(txns, o));
            ParseBlocks(Blocks(pieces), CurrencyOf(pieces)) == WithCurrency(txns, CurrencyOf(pieces))
  {
    ParsingThePrintGivesTheImages(txns, o);
    forall t | t in txns ensures Image(t) == Some(t) {
      ComesBackIffExportable(t);
    }
    ImagesAreSame(txns, CurrencyOf(Pieces(BuildOfx(txns, o))));
  }
}
