/** What PostTransaction accepts (ledger/post.go): the validation loop and its wrapping int64 sums,
    against true double-entry balance. */
module Posting {
  import opened Wrappers
  import opened Tables
  import opened Arithmetic

  datatype LedgerError = Empty | BadEntry | MixedCurrency | Unbalanced

  predicate OneSided(e: Entry) {
    e.debit >= 0 && e.credit >= 0 && (e.debit == 0) != (e.credit == 0)
  }

  function Debits(entries: seq<Entry>): int {
    if entries == [] then 0 else Debits(entries[..|entries| - 1]) + entries[|entries| - 1].debit
  }

  function Credits(entries: seq<Entry>): int {
    if entries == [] then 0 else Credits(entries[..|entries| - 1]) + entries[|entries| - 1].credit
  }

  lemma SumsAppend(entries: seq<Entry>, e: Entry)
    ensures Debits(entries + [e]) == Debits(entries) + e.debit
    ensures Credits(entries + [e]) == Credits(entries) + e.credit
  {
    assert (entries + [e])[..|entries|] == entries;
  }

  /** The complaint about the first entry that deserves one. */
  function FirstFault(entries: seq<Entry>, currency: Currency): Option<LedgerError> {
    if entries == [] then None
    else
      var before := FirstFault(entries[..|entries| - 1], currency);
      var e := entries[|entries| - 1];
      if before.Some? then before
      else if !OneSided(e) then Some(BadEntry)
      else if e.currency != currency then Some(MixedCurrency)
      else None
  }

  /** The error PostTransaction answers before it writes, if any. */
  function Verdict(entries: seq<Entry>): Option<LedgerError> {
    if entries == [] then Some(Empty)
    else if FirstFault(entries, entries[0].currency).Some? then FirstFault(entries, entries[0].currency)
    else if Wrap64(Debits(entries)) != Wrap64(Credits(entries)) then Some(Unbalanced)
    else None
  }

  /** Every entry is one-sided and all share one currency. */
  ghost predicate WellFormed(entries: seq<Entry>) {
    && entries != []
    && forall k :: 0 <= k < |entries| ==> OneSided(entries[k]) && entries[k].currency == entries[0].currency
  }

  /** An entry with a negative side, or with both sides zero, or with neither. */
  predicate Malformed(e: Entry) {
    || e.debit < 0 || e.credit < 0
    || (e.debit == 0 && e.credit == 0)
    || (e.debit != 0 && e.credit != 0)
  }

  /** The first entry that deserves a complaint. */
  ghost predicate FirstBadAt(entries: seq<Entry>, currency: Currency, k: nat) {
    && k < |entries| && (Malformed(entries[k]) || entries[k].currency != currency)
    && forall j :: 0 <= j < k ==> !Malformed(entries[j]) && entries[j].currency == currency
  }

  /** It gets the complaint, about its sides before its currency. */
  lemma {:induction false} FirstFaultNames(entries: seq<Entry>, currency: Currency, k: nat)
    requires FirstBadAt(entries, currency, k)
    ensures FirstFault(entries, currency) == Some(if Malformed(entries[k]) then BadEntry else MixedCurrency)
  {
    var front := entries[..|entries| - 1];
    if k < |front| {
      assert FirstBadAt(front, currency, k);
      FirstFaultNames(front, currency, k);
    } else {
      NoFaultIffClean(front, currency);
    }
  }

  lemma WrapAgrees(x: int, y: int)
    ensures Wrap64(x) == Wrap64(y) <==> (x - y) % TWO64 == 0
  {
    RemaindersAgree(x + TWO63, y + TWO63, TWO64);
    assert (x + TWO63) - (y + TWO63) == x - y;
  }

  /** Adding to a wrapped sum and wrapping again loses nothing more. */
  lemma WrapAdds(x: int, y: int)
    ensures Wrap64(Wrap64(x) + y) == Wrap64(x + y)
  {
    var q := (x + TWO63) / TWO64;
    assert Wrap64(x) + y + TWO63 == (x + y + TWO63) + (-q) * TWO64;
    RemainderStays(x + y + TWO63, -q, TWO64);
  }

  lemma {:induction false} NoFaultIffClean(entries: seq<Entry>, currency: Currency)
    ensures FirstFault(entries, currency).None? <==>
            forall k :: 0 <= k < |entries| ==> OneSided(entries[k]) && entries[k].currency == currency
  {
    if entries != [] {
      var front := entries[..|entries| - 1];
      NoFaultIffClean(front, currency);
      assert forall k :: 0 <= k < |front| ==> front[k] == entries[k];
      if FirstFault(entries, currency).None? {
        forall k | 0 <= k < |entries|
          ensures OneSided(entries[k]) && entries[k].currency == currency
        {
          if k < |front| {
            assert OneSided(front[k]) && front[k].currency == currency;
          }
        }
      }
    }
  }

  /** The wrapping check accepts exactly the well-formed lists that balance modulo 2^64. */
  lemma AcceptsModulo(entries: seq<Entry>)
    ensures Verdict(entries).None? <==>
            WellFormed(entries) && (Debits(entries) - Credits(entries)) % TWO64 == 0
  {
    if entries != [] {
      NoFaultIffClean(entries, entries[0].currency);
      WrapAgrees(Debits(entries), Credits(entries));
    }
  }

  /** Which error a list gets: for having no entries, for its first bad entry, or for not balancing modulo
      2^64; in that order, and none otherwise. */
  ghost predicate Deserves(entries: seq<Entry>, verdict: Option<LedgerError>) {
    if entries == [] then verdict == Some(Empty)
    else
      var currency := entries[0].currency;
      && (forall k: nat :: FirstBadAt(entries, currency, k) ==> verdict == Some(if Malformed(entries[k]) then BadEntry else MixedCurrency))
      && ((forall k :: 0 <= k < |entries| ==> !Malformed(entries[k]) && entries[k].currency == currency) ==>
            verdict == if (Debits(entries) - Credits(entries)) % TWO64 == 0 then None else Some(Unbalanced))
  }

  lemma VerdictIsDeserved(entries: seq<Entry>)
    ensures Deserves(entries, Verdict(entries))
  {
    if entries != [] {
      var currency := entries[0].currency;
      forall k: nat | FirstBadAt(entries, currency, k)
        ensures FirstFault(entries, currency) == Some(if Malformed(entries[k]) then BadEntry else MixedCurrency)
      {
        FirstFaultNames(entries, currency, k);
      }
      NoFaultIffClean(entries, currency);
      WrapAgrees(Debits(entries), Credits(entries));
    }
  }

  lemma {:induction false} SumsAreNonNegative(entries: seq<Entry>)
    requires forall k :: 0 <= k < |entries| ==> OneSided(entries[k])
    ensures Debits(entries) >= 0 && Credits(entries) >= 0
  {
    if entries != [] {
      SumsAreNonNegative(entries[..|entries| - 1]);
    }
  }

  /** While the true sums are less than 2^64 apart the check is exact: accepted if and only if the list
      truly balances. */
  lemma AcceptsIffBalanced(entries: seq<Entry>)
    requires WellFormed(entries) && -TWO64 < Debits(entries) - Credits(entries) < TWO64
    ensures Verdict(entries).None? <==> Debits(entries) == Credits(entries)
  {
    AcceptsModulo(entries);
  }

  /** Sums that are both below 2^64 are not that far apart. */
  lemma SmallSumsAreClose(entries: seq<Entry>)
    requires WellFormed(entries) && Debits(entries) < TWO64 && Credits(entries) < TWO64
    ensures -TWO64 < Debits(entries) - Credits(entries) < TWO64
    ensures Verdict(entries).None? <==> Debits(entries) == Credits(entries)
  {
    SumsAreNonNegative(entries);
    AcceptsIffBalanced(entries);
  }

  /** The bound is needed: three debits that sum to 2^64 pass with no credit at all. */
  lemma AcceptsAnUnbalancedList() returns (entries: seq<Entry>)
    ensures WellFormed(entries) && Verdict(entries).None?
    ensures Debits(entries) != Credits(entries)
  {
    var a, b := Entry(0, MAX64, 0, "USD"), Entry(0, 2, 0, "USD");
    entries := [] + [a] + [a] + [b];
    SumsAppend([], a);
    SumsAppend([] + [a], a);
    SumsAppend([] + [a] + [a], b);
    AcceptsModulo(entries);
  }
}
