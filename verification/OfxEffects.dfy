/** What the OFX printer writes and what the parser reads of any document (ingestion statements.ts; OFX 1.0.2). */
module OfxEffects {
  import opened Text
  import opened Fingerprint
  import opened Ofx

  // --- reading --------------------------------------------------------------------------------------

  lemma UpperMeans(c: char)
    ensures 'a' <= c <= 'z' ==> Upper(c) as int == c as int - 'a' as int + 'A' as int
    ensures !('a' <= c <= 'z') ==> Upper(c) == c
  {
  }

  predicate EndsLine(c: char) {
    c == '\r' || c == '\n'
  }

  /** A value runs to the end of its line, or of its piece. */
  lemma {:induction false} FirstLineIs(s: string)
    ensures FirstLine(s) <= s && (forall i :: 0 <= i < |FirstLine(s)| ==> !EndsLine(s[i]))
    ensures |FirstLine(s)| < |s| ==> EndsLine(s[|FirstLine(s)|])
  {
    if s != "" && !EndsLine(s[0]) {
      FirstLineIs(s[1..]);
      var rest := FirstLine(s[1..]);
      assert s == [s[0]] + s[1..] && FirstLine(s) == [s[0]] + rest;
      assert forall i :: 0 < i < |FirstLine(s)| ==> s[i] == s[1..][i - 1];
      if |FirstLine(s)| < |s| {
        assert s[|FirstLine(s)|] == s[1..][|rest|];
      }
    }
  }

  /** A tag's value is that of the first piece with the tag, trimmed; none when no piece has it. */
  lemma {:induction false} TagValueIs(block: seq<string>, tag: string)
    ensures TagValue(block, tag).None? <==> forall i :: 0 <= i < |block| ==> !Is(block[i], tag)
    ensures TagValue(block, tag).Some? ==>
              exists i :: 0 <= i < |block| && Is(block[i], tag) && TagValue(block, tag) == Some(Trim(FirstLine(block[i][|tag| + 1..])))
                       && forall j :: 0 <= j < i ==> !Is(block[j], tag)
  {
    if block != [] {
      TagValueIs(block[1..], tag);
      assert block == [block[0]] + block[1..];
      if Is(block[0], tag) {
        assert TagValue(block, tag) == Some(Trim(FirstLine(block[0][|tag| + 1..])));
      } else if TagValue(block, tag).Some? {
        var i :| 0 <= i < |block[1..]| && Is(block[1..][i], tag)
                 && TagValue(block[1..], tag) == Some(Trim(FirstLine(block[1..][i][|tag| + 1..])))
                 && forall j :: 0 <= j < i ==> !Is(block[1..][j], tag);
        assert block[i + 1] == block[1..][i];
        assert forall j :: 0 < j < i + 1 ==> block[j] == block[1..][j - 1];
      }
    }
  }

  /** A date is read from eight digits, whatever follows them. */
  lemma OfxDateIs(raw: Option<string>)
    ensures OfxDate(raw).Some? <==> raw.Some? && |raw.value| >= 8 && forall i :: 0 <= i < 8 ==> '0' <= raw.value[i] <= '9'
    ensures OfxDate(raw).Some? ==>
              var d := OfxDate(raw).value;
              |d| == 10 && d[..4] == raw.value[..4] && d[4] == '-' && d[5..7] == raw.value[4..6] && d[7] == '-'
              && d[8..] == raw.value[6..8]
  {
    if raw.Some? && |raw.value| >= 8 {
      assert forall i :: 0 <= i < 8 ==> raw.value[..8][i] == raw.value[i];
    }
  }

  /** A description is the name and the memo, joined by a dash when both are there. */
  lemma DescribedIs(name: string, memo: string)
    ensures name != "" && memo != "" ==> Described(name, memo) == name + " \U{2014} " + memo
    ensures name != "" && memo == "" ==> Described(name, memo) == name
    ensures name == "" && memo != "" ==> Described(name, memo) == memo
    ensures name == "" && memo == "" ==> Described(name, memo) == "(no description)"
  {
    assert name == "" ==> name + memo == memo;
    assert memo == "" ==> name + memo == name;
  }

  predicate Starts(piece: string) {
    Is(piece, "STMTTRN")
  }

  predicate Stops(piece: string) {
    Starts(piece) || Is(piece, "/STMTTRN")
  }

  /** A transaction's pieces run to its end, or to the start of the next. */
  lemma {:induction false} UntilIs(pieces: seq<string>)
    ensures Until(pieces) <= pieces && (forall i :: 0 <= i < |Until(pieces)| ==> !Stops(pieces[i]))
    ensures |Until(pieces)| < |pieces| ==> Stops(pieces[|Until(pieces)|])
  {
    if pieces != [] && !Stops(pieces[0]) {
      UntilIs(pieces[1..]);
      var rest := Until(pieces[1..]);
      assert pieces == [pieces[0]] + pieces[1..] && Until(pieces) == [pieces[0]] + rest;
      assert forall i :: 0 < i < |Until(pieces)| ==> pieces[i] == pieces[1..][i - 1];
      if |Until(pieces)| < |pieces| {
        assert pieces[|Until(pieces)|] == pieces[1..][|rest|];
      }
    }
  }

  function StartsIn(pieces: seq<string>): nat {
    if pieces == [] then 0 else (if Starts(pieces[0]) then 1 else 0) + StartsIn(pieces[1..])
  }

  /** There is one block for each transaction start. */
  lemma {:induction false} BlocksAreStarts(pieces: seq<string>)
    ensures |Blocks(pieces)| == StartsIn(pieces)
  {
    if pieces != [] {
      BlocksAreStarts(pieces[1..]);
    }
  }

  /** A block is read exactly when it has a date and an amount; its id is its own, or its date and amount. */
  lemma ParsedIs(block: seq<string>)
    ensures var date, amount := OfxDate(TagValue(block, "DTPOSTED")), TagValue(block, "TRNAMT");
            && (ParseBlock(block).Some? <==> date.Some? && amount.Some?)
            && (ParseBlock(block).Some? ==>
                  var t := ParseBlock(block).value;
                  && t.date == date.value && t.amount == Without(amount.value, ',')
                  && (TagValue(block, "FITID").Some? ==> t.fitid == TagValue(block, "FITID").value)
                  && (TagValue(block, "FITID").None? ==> t.fitid == date.value + "|" + amount.value)
                  && t.description == Described(TagValue(block, "NAME").GetOr(""), TagValue(block, "MEMO").GetOr("")))
  {
  }

  predicate DeclaresCurrency(piece: string) {
    Is(piece, "CURDEF") && |piece| >= 10 && forall i :: 7 <= i < 10 ==> IsLetter(piece[i])
  }

  lemma LettersAre(c: char)
    ensures IsLetter(c) <==> 'A' <= Upper(c) <= 'Z'
  {
  }

  /** The currency is three letters of the first declaration that has them. */
  lemma {:induction false} CurrencyIs(pieces: seq<string>)
    ensures CurrencyOf(pieces).None? <==> forall i :: 0 <= i < |pieces| ==> !DeclaresCurrency(pieces[i])
    ensures CurrencyOf(pieces).Some? ==>
              exists i :: 0 <= i < |pieces| && DeclaresCurrency(pieces[i]) && CurrencyOf(pieces) == Some(pieces[i][7..10])
                       && forall j :: 0 <= j < i ==> !DeclaresCurrency(pieces[j])
  {
    if pieces != [] {
      CurrencyIs(pieces[1..]);
      assert pieces == [pieces[0]] + pieces[1..];
      if DeclaresCurrency(pieces[0]) {
        assert CurrencyOf(pieces) == Some(pieces[0][7..10]);
      } else if CurrencyOf(pieces).Some? {
        var i :| 0 <= i < |pieces[1..]| && DeclaresCurrency(pieces[1..][i]) && CurrencyOf(pieces[1..]) == Some(pieces[1..][i][7..10])
                 && forall j :: 0 <= j < i ==> !DeclaresCurrency(pieces[1..][j]);
        assert pieces[i + 1] == pieces[1..][i];
        assert forall j :: 0 < j < i + 1 ==> pieces[j] == pieces[1..][j - 1];
      }
    }
  }

  // --- writing --------------------------------------------------------------------------------------

  /** A tag and its value, as they follow a `<`. */
  function Tagged(tag: string, value: string): string {
    tag + ">" + value
  }

  /** The sign-on, the response, the account and the dates, as they are written before the transactions. */
  lemma OpeningIs(txns: seq<StatementTxn>, o: ExportOptions)
    ensures Opening(txns, o)
         == [Tagged("OFX", ""), Tagged("SIGNONMSGSRSV1", ""), Tagged("SONRS", ""), Tagged("STATUS", ""), Tagged("CODE", "0"),
             Tagged("SEVERITY", "INFO"), Tagged("/STATUS", ""),
             Tagged("DTSERVER", if o.dtServer.Some? then o.dtServer.value else Latest(txns) + "120000"),
             Tagged("LANGUAGE", "ENG"), Tagged("/SONRS", ""), Tagged("/SIGNONMSGSRSV1", "")]
          + [Tagged("BANKMSGSRSV1", ""), Tagged("STMTTRNRS", ""), Tagged("TRNUID", "1"), Tagged("STATUS", ""),
             Tagged("CODE", "0"), Tagged("SEVERITY", "INFO"), Tagged("/STATUS", ""), Tagged("STMTRS", ""),
             Tagged("CURDEF", o.currency)]
          + [Tagged("BANKACCTFROM", ""), Tagged("BANKID", Escape(o.bankId)), Tagged("ACCTID", Escape(o.acctId)),
             Tagged("ACCTTYPE", o.acctType), Tagged("/BANKACCTFROM", ""), Tagged("BANKTRANLIST", ""),
             Tagged("DTSTART", Earliest(txns)), Tagged("DTEND", Latest(txns) + (if txns == [] then "\n\n" else "\n"))]
  {
  }

  /** The balance and the closing tags, as they are written after the transactions. */
  lemma ClosingIs(txns: seq<StatementTxn>, o: ExportOptions)
    ensures Closing(txns, o)
         == [Tagged("/BANKTRANLIST", ""), Tagged("LEDGERBAL", ""), Tagged("BALAMT", Trim(o.ledgerBalance)),
             Tagged("DTASOF", Latest(txns)), Tagged("/LEDGERBAL", ""), Tagged("/STMTRS", ""), Tagged("/STMTTRNRS", ""),
             Tagged("/BANKMSGSRSV1", ""), Tagged("/OFX", "\n")]
  {
  }

  /** One transaction as it is written: type by sign, date without dashes, amount without commas, id and a short name. */
  lemma FieldsAre(t: StatementTxn)
    ensures var amount := Trim(Without(t.amount, ','));
            Fields(t)
            == [Tagged("TRNTYPE", if |Trim(amount)| > 0 && Trim(amount)[0] == '-' then "DEBIT" else "CREDIT"),
                Tagged("DTPOSTED", ToOfxDate(t.date)), Tagged("TRNAMT", amount), Tagged("FITID", Escape(t.fitid)),
                Tagged("NAME", Escape(if |t.description| <= 32 then t.description else t.description[..32]))]
  {
  }

  /** The header that comes before the markup. */
  lemma HeaderIs()
    ensures HEADER == ["OFXHEADER:100", "DATA:OFXSGML", "VERSION:102", "SECURITY:NONE", "ENCODING:USASCII",
                       "CHARSET:1252", "COMPRESSION:NONE", "OLDFILEUID:NONE", "NEWFILEUID:NONE", ""]
  {
  }

  /** What is escaped: the three characters that mean something in the markup, and nothing else. */
  lemma EscapesAre(c: char)
    ensures EscapeChar('&') == "&amp;" && EscapeChar('<') == "&lt;" && EscapeChar('>') == "&gt;"
    ensures c != '&' && c != '<' && c != '>' ==> EscapeChar(c) == [c]
  {
  }

  // --- the dates of a statement -----------------------------------------------------------------------

  predicate NoLater(a: string, b: string) {
    a == b || SortsBefore(a, b)
  }

  /** A statement starts on the first of its transactions' dates and ends on the last. */
  lemma {:induction false} DatesBoundTheStatement(txns: seq<StatementTxn>, i: nat)
    requires i < |txns|
    ensures NoLater(Earliest(txns), ToOfxDate(txns[i].date)) && NoLater(ToOfxDate(txns[i].date), Latest(txns))
    ensures exists j :: 0 <= j < |txns| && Earliest(txns) == ToOfxDate(txns[j].date)
    ensures exists j :: 0 <= j < |txns| && Latest(txns) == ToOfxDate(txns[j].date)
  {
    if |txns| > 1 {
      var first, rest := ToOfxDate(txns[0].date), txns[1..];
      DatesBoundTheStatement(rest, if i == 0 then 0 else i - 1);
      OneSortsFirst(Earliest(rest), first);
      OneSortsFirst(Latest(rest), first);
      if i > 0 {
        assert rest[i - 1] == txns[i];
        SortingIsTransitive(Earliest(txns), Earliest(rest), ToOfxDate(txns[i].date));
        SortingIsTransitive(ToOfxDate(txns[i].date), Latest(rest), Latest(txns));
      }
      var j :| 0 <= j < |rest| && Earliest(rest) == ToOfxDate(rest[j].date);
      var k :| 0 <= k < |rest| && Latest(rest) == ToOfxDate(rest[k].date);
      assert txns[j + 1] == rest[j] && txns[k + 1] == rest[k] && txns[0].date == txns[0].date;
    } else {
      assert Earliest(txns) == ToOfxDate(txns[0].date) == Latest(txns);
    }
  }

  /** Without transactions both dates are the epoch's. */
  lemma EmptyStatementDates()
    ensures Earliest([]) == Latest([]) == "19700101"
  {
  }
}
