/** The open-item store behind AR and AP (ledger-service documents.ts). */
module Documents {
  import opened Text
  import opened Dates
  import opened Sums
  import opened Ledger

  datatype DocKind = INVOICE | BILL
  datatype PartyKind = CUSTOMER | VENDOR
  datatype DocStatus = OPEN | PARTIAL | PAID

  datatype Party = Party(id: string, name: string)

  datatype DocLine = DocLine(
    description: string, quantity: int, unitAmount: int, accountCode: string, amount: int, taxable: bool)

  datatype Doc = Doc(
    id: string, kind: DocKind, partyId: string, date: Date, net: int, tax: int, taxRatePpm: int,
    total: int, open: int, status: DocStatus, memo: string, lines: seq<DocLine>)

  datatype Payment = Payment(id: string, kind: DocKind, docId: string, date: Date, amount: int, bankCode: string)

  /** One tenant's documents. */
  datatype Items = Items(
    parties: map<(PartyKind, string), Party>,
    docs: map<(DocKind, string), Doc>,
    payments: map<(DocKind, string), Payment>)

  const NoItems := Items(map[], map[], map[])

  function WithOpen(items: Items, kind: DocKind, id: string, open: int, status: DocStatus): Items {
    if (kind, id) in items.docs
    then items.(docs := items.docs[(kind, id) := items.docs[(kind, id)].(open := open, status := status)])
    else items
  }

  function PaymentsOn(items: Items, kind: DocKind, docId: string): set<(DocKind, string)> {
    set k | k in items.payments && k.0 == kind && items.payments[k].docId == docId
  }

  /** The sum of what is still open on the documents of one kind. */
  ghost function OpenTotal(docs: map<(DocKind, string), Doc>, kind: DocKind): int {
    Sum(OpenAmounts(docs, kind))
  }

  ghost function OpenAmounts(docs: map<(DocKind, string), Doc>, kind: DocKind): map<(DocKind, string), int> {
    map k | k in docs && k.0 == kind :: docs[k].open
  }

  lemma OpenTotalAfterUpdate(docs: map<(DocKind, string), Doc>, key: (DocKind, string), doc: Doc, kind: DocKind)
    ensures OpenTotal(docs[key := doc], kind) ==
            OpenTotal(docs, kind) + if key.0 == kind then doc.open - (if key in docs then docs[key].open else 0) else 0
  {
    var before, after := OpenAmounts(docs, kind), OpenAmounts(docs[key := doc], kind);
    if key.0 == kind {
      assert after == before[key := doc.open];
      SumAfterUpdate(before, key, doc.open);
    } else {
      assert after == before;
    }
  }

  class InMemoryDocumentStore {
    var tenants: map<TenantId, Items>

    /** The source keys each map by tenant, kind and id together. */
    function View(t: TenantId): Items
      reads this
    {
      if t in tenants then tenants[t] else NoItems
    }

    constructor ()
      ensures forall t :: View(t) == NoItems
    {
      tenants := map[];
    }

    method UpsertParty(t: TenantId, kind: PartyKind, party: Party)
      modifies this
      ensures View(t) == old(View(t)).(parties := old(View(t)).parties[(kind, party.id) := party])
      ensures forall u :: u != t ==> View(u) == old(View(u))
    {
      var items := View(t);
      tenants := tenants[t := items.(parties := items.parties[(kind, party.id) := party])];
    }

    method GetParty(t: TenantId, kind: PartyKind, id: string) returns (r: Option<Party>)
      ensures r == if (kind, id) in View(t).parties then Some(View(t).parties[(kind, id)]) else None
    {
      var items := View(t);
      r := if (kind, id) in items.parties then Some(items.parties[(kind, id)]) else None;
    }

    method SaveDoc(t: TenantId, doc: Doc)
      modifies this
      ensures View(t) == old(View(t)).(docs := old(View(t)).docs[(doc.kind, doc.id) := doc])
      ensures forall u :: u != t ==> View(u) == old(View(u))
    {
      var items := View(t);
      tenants := tenants[t := items.(docs := items.docs[(doc.kind, doc.id) := doc])];
    }

    method DeleteDoc(t: TenantId, kind: DocKind, id: string)
      modifies this
      ensures View(t) == old(View(t)).(docs := old(View(t)).docs - {(kind, id)})
      ensures forall u :: u != t ==> View(u) == old(View(u))
    {
      var items := View(t);
      tenants := tenants[t := items.(docs := items.docs - {(kind, id)})];
    }

    method GetDoc(t: TenantId, kind: DocKind, id: string) returns (r: Option<Doc>)
      ensures r == if (kind, id) in View(t).docs then Some(View(t).docs[(kind, id)]) else None
    {
      var items := View(t);
      r := if (kind, id) in items.docs then Some(items.docs[(kind, id)]) else None;
    }

    method SetOpen(t: TenantId, kind: DocKind, id: string, open: int, status: DocStatus)
      modifies this
      ensures View(t) == WithOpen(old(View(t)), kind, id, open, status)
      ensures forall u :: u != t ==> View(u) == old(View(u))
    {
      var items := View(t);
      if (kind, id) in items.docs {
        var existing := items.docs[(kind, id)];
        tenants := tenants[t := items.(docs := items.docs[(kind, id) := existing.(open := open, status := status)])];
      }
    }

    method AddPayment(t: TenantId, payment: Payment)
      modifies this
      ensures View(t) == old(View(t)).(payments := old(View(t)).payments[(payment.kind, payment.id) := payment])
      ensures forall u :: u != t ==> View(u) == old(View(u))
    {
      var items := View(t);
      tenants := tenants[t := items.(payments := items.payments[(payment.kind, payment.id) := payment])];
    }
  }
}
