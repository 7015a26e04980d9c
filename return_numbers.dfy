/** Return records and their numbering (src/models/returns.model.js): the
    pre-save hook of a new return gives it the number
    `RTN-<yyyymmdd>-<last 4 of company>-<counter padded to 6>`, the counter
    being one more than that of the greatest stored number with the same
    prefix, and a `counterNumber` taken from the company's
    'POSReturnCounter'. */
module ReturnNumbers {
  import opened Common
  import opened Text
  import opened Decimal
  import Counters

  const CounterName := "POSReturnCounter"
  const DuplicateKeyMessage := "E11000 duplicate key error"

  /** One returned line as the request and the stored record carry it. */
  datatype ReturnLine = ReturnLine(
    productId: Id, batchId: string, quantity: int, unitPrice: int, totalPrice: int, serialDetails: seq<string>)

  /** A return; the two numbers are unset until the first save. */
  datatype ReturnRecord = ReturnRecord(
    id: Id,
    originalTransactionId: Id,
    companyId: Id,
    returnNumber: Option<string>,
    counterNumber: Option<nat>,
    products: seq<ReturnLine>,
    totalRefund: int,
    refundMethod: string,
    createdBy: Id,
    linkedEntityId: Option<Id>,
    accountId: Option<Id>,
    reason: Option<string>,
    createdAt: int)

  /** `companyId.toString().slice(-4)` */
  function Last4(s: string): (r: string)
    ensures |r| == Min(|s|, 4) && r == s[|s| - |r|..]
  {
    if |s| <= 4 then s else s[|s| - 4..]
  }

  /** `RTN-${datePart}-${companyIdPart}`; `datePart` is today's yyyymmdd. */
  function ReturnPrefix(datePart: string, companyId: Id): string
  {
    "RTN-" + datePart + "-" + Last4(companyId)
  }

  /** `counter.toString().padStart(6, '0')`, where `None` is NaN. */
  function CounterText(counter: Option<nat>): string
  {
    match counter
    case None => PadStart("NaN", 6)
    case Some(n) => Pad6(n)
  }

  function ReturnNumber(prefix: string, counter: Option<nat>): string
  {
    prefix + "-" + CounterText(counter)
  }

  predicate NumberHasPrefix(prefix: string, r: ReturnRecord)
  {
    r.returnNumber.Some? && HasPrefix(r.returnNumber.value, prefix)
  }

  /** `findOne({ returnNumber: /^prefix/ }).sort({ returnNumber: -1 })`: the
      index of a stored return whose number has the prefix and is greatest in
      string order. The returns model has no pre-find hook and the query has
      no company filter. */
  function Greatest(stored: seq<ReturnRecord>, prefix: string): (g: Option<nat>)
    ensures g.Some? ==> g.value < |stored| && NumberHasPrefix(prefix, stored[g.value])
    ensures g.Some? ==> forall i :: 0 <= i < |stored| && NumberHasPrefix(prefix, stored[i]) ==>
      !LexLess(stored[g.value].returnNumber.value, stored[i].returnNumber.value)
    ensures g.None? <==> forall i :: 0 <= i < |stored| ==> !NumberHasPrefix(prefix, stored[i])
  {
    if |stored| == 0 then None
    else
      var n := |stored| - 1;
      var g := Greatest(stored[..n], prefix);
      assert forall i :: 0 <= i < n ==> stored[..n][i] == stored[i];
      if !NumberHasPrefix(prefix, stored[n]) then g
      else if g.None? then
        LexLessIrreflexive(stored[n].returnNumber.value);
        Some(n)
      else if LexLess(stored[g.value].returnNumber.value, stored[n].returnNumber.value) then
        GreatestStaysGreatest(stored, prefix, g.value, n);
        Some(n)
      else g
  }

  /** When the last number exceeds the greatest earlier one, nothing exceeds
      the last. */
  lemma GreatestStaysGreatest(stored: seq<ReturnRecord>, prefix: string, g: nat, n: nat)
    requires n == |stored| - 1 && g < n
    requires NumberHasPrefix(prefix, stored[g]) && NumberHasPrefix(prefix, stored[n])
    requires forall i :: 0 <= i < n && NumberHasPrefix(prefix, stored[i]) ==>
      !LexLess(stored[g].returnNumber.value, stored[i].returnNumber.value)
    requires LexLess(stored[g].returnNumber.value, stored[n].returnNumber.value)
    ensures forall i :: 0 <= i < |stored| && NumberHasPrefix(prefix, stored[i]) ==>
      !LexLess(stored[n].returnNumber.value, stored[i].returnNumber.value)
  {
    var top := stored[n].returnNumber.value;
    LexLessIrreflexive(top);
    forall i | 0 <= i < |stored| && NumberHasPrefix(prefix, stored[i])
      ensures !LexLess(top, stored[i].returnNumber.value)
    {
      if i < n && LexLess(top, stored[i].returnNumber.value) {
        LexLessTransitive(stored[g].returnNumber.value, top, stored[i].returnNumber.value);
      }
    }
  }

  /** The number of the greatest match, if any. */
  function LastNumber(stored: seq<ReturnRecord>, prefix: string): Option<string>
  {
    match Greatest(stored, prefix)
    case None => None
    case Some(g) => stored[g].returnNumber
  }

  /** `let counter = 1`, or one more than `parseInt` of the last '-'
      segment of the greatest match (NaN stays NaN). */
  function NextCounter(last: Option<string>): (c: Option<nat>)
    ensures last.None? ==> c == Some(1)
  {
    match last
    case None => Some(1)
    case Some(s) =>
      match ParseInt(LastSegment(s))
      case None => None
      case Some(k) => Some(k + 1)
  }

  /** The return number the pre-save hook gives a new return of company `c`
      on the day `datePart`. */
  function NumberFor(stored: seq<ReturnRecord>, c: Id, datePart: string): string
  {
    var prefix := ReturnPrefix(datePart, c);
    ReturnNumber(prefix, NextCounter(LastNumber(stored, prefix)))
  }

  // ---------------------------------------------------------------------
  // The number parses back to its counter, and below a million it is new.

  /** Reading the last '-' segment of a generated number gives back its
      counter. */
  lemma NumberRoundTrip(prefix: string, n: nat)
    ensures ParseInt(LastSegment(ReturnNumber(prefix, Some(n)))) == Some(n)
  {
    LastSegmentAfterDash(prefix, Pad6(n));
    Pad6Parses(n);
  }

  /** Two generated numbers with the same prefix are equal only for the same
      counter, and compare as their counters below a million. */
  lemma NumberCompare(prefix: string, a: nat, b: nat)
    ensures ReturnNumber(prefix, Some(a)) == ReturnNumber(prefix, Some(b)) ==> a == b
    ensures a < 1000000 && b < 1000000 ==>
      (LexLess(ReturnNumber(prefix, Some(a)), ReturnNumber(prefix, Some(b))) <==> a < b)
  {
    NumberRoundTrip(prefix, a);
    NumberRoundTrip(prefix, b);
    LexLessCommonPrefix(prefix + "-", Pad6(a), Pad6(b));
    if a < 1000000 && b < 1000000 { Pad6Ordered(a, b); }
  }

  lemma GeneratedHasPrefix(prefix: string, c: Option<nat>)
    ensures HasPrefix(ReturnNumber(prefix, c), prefix)
  {
    assert ReturnNumber(prefix, c)[..|prefix|] == prefix;
  }

  /** The stored return carries the generated number with counter `k`,
      and `k` is below 999999. */
  predicate Generated(r: ReturnRecord, prefix: string, k: nat)
  {
    r.returnNumber == Some(ReturnNumber(prefix, Some(k))) && k < 999999
  }

  /** Every stored number with the prefix was generated, the i-th with
      counter `ks[i]` below 999999. */
  ghost predicate NumberedBelowMillion(stored: seq<ReturnRecord>, prefix: string, ks: seq<nat>)
    decreases |stored|
  {
    && |ks| == |stored|
    && (|stored| == 0 ||
        var n := |stored| - 1;
        && NumberedBelowMillion(stored[..n], prefix, ks[..n])
        && (NumberHasPrefix(prefix, stored[n]) ==> Generated(stored[n], prefix, ks[n])))
  }

  lemma {:induction false} NumberedAt(stored: seq<ReturnRecord>, prefix: string, ks: seq<nat>, i: nat)
    requires NumberedBelowMillion(stored, prefix, ks)
    requires i < |stored| && NumberHasPrefix(prefix, stored[i])
    ensures Generated(stored[i], prefix, ks[i])
    decreases |stored|
  {
    var n := |stored| - 1;
    var front, kfront := stored[..n], ks[..n];
    assert NumberedBelowMillion(front, prefix, kfront);
    if i < n {
      assert front[i] == stored[i] && kfront[i] == ks[i];
      NumberedAt(front, prefix, kfront, i);
    }
  }

  /** While every counter of the prefix is below 999999, the next counter is
      one more than the highest of them (1 when there is none), and the
      next number is not yet taken: the descending string sort finds the
      numerically greatest number. */
  lemma NextIsFresh(stored: seq<ReturnRecord>, prefix: string, ks: seq<nat>)
    requires NumberedBelowMillion(stored, prefix, ks)
    ensures var c := NextCounter(LastNumber(stored, prefix));
      && c.Some? && c.value <= 999999
      && (forall i :: 0 <= i < |stored| && NumberHasPrefix(prefix, stored[i]) ==> ks[i] < c.value)
      && (forall i :: 0 <= i < |stored| ==> stored[i].returnNumber != Some(ReturnNumber(prefix, c)))
  {
    var c := NextCounter(LastNumber(stored, prefix));
    GeneratedHasPrefix(prefix, c);
    if Greatest(stored, prefix).Some? {
      var g := Greatest(stored, prefix).value;
      var top := stored[g].returnNumber.value;
      NumberedAt(stored, prefix, ks, g);
      GreatestCounter(stored, prefix, ks[g]);
      forall i | 0 <= i < |stored| && NumberHasPrefix(prefix, stored[i]) ensures ks[i] < c.value {
        NumberedAt(stored, prefix, ks, i);
        CounterBelowGreatest(prefix, ks[g], ks[i], top, stored[i].returnNumber.value);
      }
      forall i | 0 <= i < |stored| && stored[i].returnNumber == Some(ReturnNumber(prefix, c))
        ensures false
      {
        NumberedAt(stored, prefix, ks, i);
        CounterBelowGreatest(prefix, ks[g], ks[i], top, stored[i].returnNumber.value);
        NumberCompare(prefix, ks[i], c.value);
      }
    }
  }

  lemma CounterBelowGreatest(prefix: string, kg: nat, ki: nat, top: string, other: string)
    requires kg < 999999 && ki < 999999
    requires top == ReturnNumber(prefix, Some(kg)) && other == ReturnNumber(prefix, Some(ki))
    requires !LexLess(top, other)
    ensures ki <= kg
  {
    NumberCompare(prefix, kg, ki);
  }

  /** The counter after the greatest generated number is one more than its
      counter. */
  lemma GreatestCounter(stored: seq<ReturnRecord>, prefix: string, k: nat)
    requires Greatest(stored, prefix).Some?
    requires stored[Greatest(stored, prefix).value].returnNumber == Some(ReturnNumber(prefix, Some(k)))
    ensures NextCounter(LastNumber(stored, prefix)) == Some(k + 1)
  {
    var s := ReturnNumber(prefix, Some(k));
    NumberRoundTrip(prefix, k);
    NextAfter(s, k);
    assert LastNumber(stored, prefix) == Some(s);
  }

  /** The counter after a number whose last segment parses to k. */
  lemma NextAfter(s: string, k: nat)
    requires ParseInt(LastSegment(s)) == Some(k)
    ensures NextCounter(Some(s)) == Some(k + 1)
  {
    var p := ParseInt(LastSegment(s));
    assert NextCounter(Some(s)) == if p.Some? then Some(p.value + 1) else None;
  }

  /** A new number generated under the bound keeps the bound for the next
      one, as long as its counter stays below 999999. */
  lemma NumberedExtends(stored: seq<ReturnRecord>, prefix: string, ks: seq<nat>, r: ReturnRecord)
    requires NumberedBelowMillion(stored, prefix, ks)
    requires r.returnNumber == Some(ReturnNumber(prefix, NextCounter(LastNumber(stored, prefix))))
    requires NextCounter(LastNumber(stored, prefix)).Some? && NextCounter(LastNumber(stored, prefix)).value < 999999
    ensures NumberedBelowMillion(stored + [r], prefix, ks + [NextCounter(LastNumber(stored, prefix)).value])
  {
    NextIsFresh(stored, prefix, ks);
    var c := NextCounter(LastNumber(stored, prefix)).value;
    assert (stored + [r])[..|stored|] == stored && (ks + [c])[..|ks|] == ks;
  }

  /** At one million the scheme repeats itself: with counters 999999 and
      1000000 stored, the string sort picks '...-999999', so the next number
      is '...-1000000' again. */
  lemma CollisionAtMillion(prefix: string, r1: ReturnRecord, r2: ReturnRecord)
    requires r1.returnNumber == Some(ReturnNumber(prefix, Some(999999)))
    requires r2.returnNumber == Some(ReturnNumber(prefix, Some(1000000)))
    ensures NextCounter(LastNumber([r1, r2], prefix)) == Some(1000000)
    ensures Some(ReturnNumber(prefix, NextCounter(LastNumber([r1, r2], prefix)))) == r2.returnNumber
  {
    GeneratedHasPrefix(prefix, Some(999999));
    GeneratedHasPrefix(prefix, Some(1000000));
    Pad6OrderBreaks();
    LexLessCommonPrefix(prefix + "-", Pad6(1000000), Pad6(999999));
    LexLessAsymmetric(ReturnNumber(prefix, Some(1000000)), ReturnNumber(prefix, Some(999999)));
    assert Greatest([r1, r2], prefix) == Some(0);
    NumberRoundTrip(prefix, 999999);
  }

  /** The first return of a prefix is numbered '...-000001'. */
  lemma FirstNumber(stored: seq<ReturnRecord>, prefix: string)
    requires forall i :: 0 <= i < |stored| ==> !NumberHasPrefix(prefix, stored[i])
    ensures ReturnNumber(prefix, NextCounter(LastNumber(stored, prefix))) == prefix + "-000001"
  {
    assert NatToString(1) == "1";
    assert Zeros(5) == "00000";
  }

  // ---------------------------------------------------------------------

  /** The returns collection. */
  class ReturnStore {
    var stored: seq<ReturnRecord>

    constructor()
      ensures stored == []
    {
      stored := [];
    }

    /** The pre-save hook: for a new document, the number from the greatest
        match and the company counter's next value; the counter is advanced
        outside any session. `counterError` is the outcome of that upsert
        (None when it succeeds): a failure is handed to `next(err)`, which
        fails the save and leaves the counters as they were. A document
        that is not new is left as it is. */
    method PreSave(doc: ReturnRecord, isNew: bool, counters: Counters.CounterStore, datePart: string,
                   counterError: Option<string>)
      returns (r: Result<ReturnRecord>)
      modifies counters
      ensures !isNew ==> r == Ok(doc) && counters.docs == old(counters.docs)
      ensures isNew && counterError.Some? ==>
        r == Err(500, counterError.value) && counters.docs == old(counters.docs)
      ensures isNew && counterError.None? ==>
        && r == Ok(doc.(returnNumber := Some(NumberFor(stored, doc.companyId, datePart)),
                        counterNumber := Some(Counters.Next(old(counters.docs), CounterName, doc.companyId).1)))
        && counters.docs == Counters.Next(old(counters.docs), CounterName, doc.companyId).0
    {
      if !isNew {
        return Ok(doc);
      }
      var prefix := ReturnPrefix(datePart, doc.companyId);
      var lastReturn := Greatest(stored, prefix);
      var counter: Option<nat> := Some(1);
      if lastReturn.Some? {
        var lastCounter := ParseInt(LastSegment(stored[lastReturn.value].returnNumber.value));
        counter := if lastCounter.Some? then Some(lastCounter.value + 1) else None;
        assert LastNumber(stored, prefix) == stored[lastReturn.value].returnNumber;
      }
      assert counter == NextCounter(LastNumber(stored, prefix));
      var saved := doc.(returnNumber := Some(ReturnNumber(prefix, counter)));
      if counterError.Some? {
        return Err(500, counterError.value);
      }
      assert saved.returnNumber == Some(NumberFor(stored, doc.companyId, datePart));
      var seqv := counters.GetNextSequence(CounterName, doc.companyId);
      r := Ok(saved.(counterNumber := Some(seqv)));
    }

    /** `returnTxn.save()` of a new return: the hook, then the insert, which
        the unique index on `returnNumber` refuses for a number already
        stored. A failed counter upsert fails the save before the insert;
        otherwise the counter advance of the hook stays either way. */
    method Save(doc: ReturnRecord, counters: Counters.CounterStore, datePart: string, counterError: Option<string>)
      returns (r: Result<ReturnRecord>)
      modifies this, counters
      ensures counterError.Some? ==>
        r == Err(500, counterError.value) && stored == old(stored) && counters.docs == old(counters.docs)
      ensures counterError.None? ==> counters.docs == Counters.Next(old(counters.docs), CounterName, doc.companyId).0
      ensures counterError.None? && Taken(old(stored), NumberFor(old(stored), doc.companyId, datePart)) ==>
                r == Err(500, DuplicateKeyMessage) && stored == old(stored)
      ensures counterError.None? && !Taken(old(stored), NumberFor(old(stored), doc.companyId, datePart)) ==>
                && r == Ok(doc.(returnNumber := Some(NumberFor(old(stored), doc.companyId, datePart)),
                                counterNumber := Some(Counters.Next(old(counters.docs), CounterName, doc.companyId).1)))
                && stored == old(stored) + [r.value]
    {
      var hooked := PreSave(doc, true, counters, datePart, counterError);
      if hooked.Err? {
        return hooked;
      }
      var saved := hooked.value;
      if Taken(stored, saved.returnNumber.value) {
        return Err(500, DuplicateKeyMessage);
      }
      stored := stored + [saved];
      r := Ok(saved);
    }
  }

  /** The outcome of the hook's counter upsert under the counter schema as
      written, where `name` is unique on its own as well. */
  function AsWrittenCounterError(docs: seq<Counters.CounterDoc>, c: Id): (e: Option<string>)
    ensures e.Some? <==> Counters.NextAsWritten(docs, CounterName, c).Err?
  {
    match Counters.NextAsWritten(docs, CounterName, c)
    case Err(_, m) => Some(m)
    case Ok(_) => None
  }

  predicate Taken(stored: seq<ReturnRecord>, number: string)
  {
    exists i :: 0 <= i < |stored| && stored[i].returnNumber == Some(number)
  }

  /** Below the bound, saving never hits the unique index. */
  lemma SaveSucceedsBelowMillion(stored: seq<ReturnRecord>, prefix: string, ks: seq<nat>)
    requires NumberedBelowMillion(stored, prefix, ks)
    ensures !Taken(stored, ReturnNumber(prefix, NextCounter(LastNumber(stored, prefix))))
  {
    NextIsFresh(stored, prefix, ks);
  }
}
