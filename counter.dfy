/** Named sequence counters (src/utils/counterService.js and
    src/models/counter.model.js): one document per (name, company) whose
    `seq` an upserting `$inc` advances. */
module Counters {
  import opened Common

  datatype CounterDoc = CounterDoc(name: string, companyId: Id, count: nat)  // `count` is the stored `seq` field

  predicate IsPair(name: string, c: Id, d: CounterDoc)
  {
    d.name == name && d.companyId == c
  }

  function PairOf(name: string, c: Id): CounterDoc -> bool
  {
    d => IsPair(name, c, d)
  }

  /** The current value for a pair; a pair without a document reads as 0. */
  function SeqOf(docs: seq<CounterDoc>, name: string, c: Id): nat
  {
    match FirstWhere(docs, PairOf(name, c))
    case None => 0
    case Some(i) => docs[i].count
  }

  /** `findOneAndUpdate({ name, companyId }, { $inc: { seq: 1 } }, { new: true,
      upsert: true })` under the compound (name, companyId) key: the
      documents afterwards and the returned `seq`. */
  function Next(docs: seq<CounterDoc>, name: string, c: Id): (r: (seq<CounterDoc>, nat))
  {
    match FirstWhere(docs, PairOf(name, c))
    case None => (docs + [CounterDoc(name, c, 1)], 1)
    case Some(i) => (docs[i := docs[i].(count := docs[i].count + 1)], docs[i].count + 1)
  }

  /** The collection of counters. */
  class CounterStore {
    var docs: seq<CounterDoc>

    constructor()
      ensures docs == []
    {
      docs := [];
    }

    /** `getNextSequence(name, companyId)` */
    method GetNextSequence(name: string, c: Id) returns (r: nat)
      modifies this
      ensures docs == Next(old(docs), name, c).0 && r == Next(old(docs), name, c).1
    {
      var i := FirstWhere(docs, PairOf(name, c));
      if i.None? {
        docs := docs + [CounterDoc(name, c, 1)];
        r := 1;
      } else {
        r := docs[i.value].count + 1;
        docs := docs[i.value := docs[i.value].(count := r)];
      }
    }
  }

  // ---------------------------------------------------------------------



  /** The returned value is the previous value of the pair plus one, and the
      pair now reads as that value; a fresh pair starts at 1. */
  lemma NextIncrements(docs: seq<CounterDoc>, name: string, c: Id)
    ensures Next(docs, name, c).1 == SeqOf(docs, name, c) + 1
    ensures SeqOf(Next(docs, name, c).0, name, c) == Next(docs, name, c).1
    ensures FirstWhere(docs, PairOf(name, c)).None? ==> Next(docs, name, c).1 == 1
  {
    var i := FirstWhere(docs, PairOf(name, c));
    var docs' := Next(docs, name, c).0;
    if i.Some? {
      FirstWhereSameMatches(docs, docs', PairOf(name, c));
    } else {
      assert forall j :: 0 <= j < |docs| ==> docs'[j] == docs[j];
      assert IsPair(name, c, docs'[|docs|]);
    }
  }

  /** Every other (name, company) pair keeps its value. */
  lemma NextLeavesOthers(docs: seq<CounterDoc>, name: string, c: Id, name': string, c': Id)
    requires name' != name || c' != c
    ensures SeqOf(Next(docs, name, c).0, name', c') == SeqOf(docs, name', c')
  {
    var i := FirstWhere(docs, PairOf(name, c));
    var docs' := Next(docs, name, c).0;
    if i.Some? {
      FirstWhereSameMatches(docs, docs', PairOf(name', c'));
    } else {
      FirstWhereSnoc(docs, CounterDoc(name, c, 1), PairOf(name', c'));
    }
  }

  /** Two successive calls for the same pair return increasing values. */
  lemma NextStrictlyIncreasing(docs: seq<CounterDoc>, name: string, c: Id)
    ensures var (docs', first) := Next(docs, name, c);
      Next(docs', name, c).1 == first + 1
  {
    NextIncrements(docs, name, c);
    NextIncrements(Next(docs, name, c).0, name, c);
  }

  // ---------------------------------------------------------------------
  // The schema as written also declares `name` unique on its own.

  const DuplicateKeyMessage := "E11000 duplicate key error"

  predicate HasName(name: string, d: CounterDoc) { d.name == name }

  function NameOf(name: string): CounterDoc -> bool
  {
    d => HasName(name, d)
  }

  /** The upsert under both unique indexes of the schema: inserting a
      document for a new company fails when another company already owns a
      counter of that name. */
  function NextAsWritten(docs: seq<CounterDoc>, name: string, c: Id): (r: Result<(seq<CounterDoc>, nat)>)
    ensures FirstWhere(docs, PairOf(name, c)).Some? ==> r == Ok(Next(docs, name, c))
    ensures FirstWhere(docs, PairOf(name, c)).None? && FirstWhere(docs, NameOf(name)).Some? ==>
      r == Err(500, DuplicateKeyMessage)
    ensures FirstWhere(docs, NameOf(name)).None? ==> r == Ok(Next(docs, name, c))
  {
    if FirstWhere(docs, PairOf(name, c)).None? && FirstWhere(docs, NameOf(name)).Some?
    then Err(500, DuplicateKeyMessage)
    else Ok(Next(docs, name, c))
  }

  /** The first return of a second company fails: its 'POSReturnCounter'
      cannot be created, while the per-company counter starts at 1. */
  lemma SecondCompanyCounterFails(a: Id, b: Id, n: nat)
    requires a != b
    ensures NextAsWritten([CounterDoc("POSReturnCounter", a, n)], "POSReturnCounter", b).Err?
    ensures Next([CounterDoc("POSReturnCounter", a, n)], "POSReturnCounter", b).1 == 1
  {
    var docs := [CounterDoc("POSReturnCounter", a, n)];
    assert !IsPair("POSReturnCounter", b, docs[0]);
    assert HasName("POSReturnCounter", docs[0]);
  }
}
