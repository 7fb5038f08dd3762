/** Repeated and interleaved calls of the two repair scripts. */
module Convergence {
  import opened CacheStore
  import DnsblRepair
  import ReputationRepair

  /** The runs of `n` consecutive calls of one repair routine, each on the
      directory the previous call left behind. */
  function Runs(fix: Snapshot -> Run, s: Snapshot, n: nat): (rs: seq<Run>)
    ensures |rs| == n
    ensures n > 0 ==> rs[0] == fix(s)
    decreases n
  {
    if n == 0 then [] else [fix(s)] + Runs(fix, fix(s).after, n - 1)
  }

  /** A directory that a routine leaves as it found it stays so however often
      the routine is called, and every call ends the same way. */
  lemma {:induction false} RunsAtFixpoint(fix: Snapshot -> Run, t: Snapshot, n: nat)
    requires fix(t).after == t
    ensures forall i :: 0 <= i < n ==> Runs(fix, t, n)[i] == fix(t)
  {
    if n > 0 {
      RunsAtFixpoint(fix, t, n - 1);
    }
  }

  /** After the first call of `fix_dnsbl_list`, every further call changes
      nothing and ends as `NextCall` says: False, the first call's exception,
      or True again for a file that cannot be read. */
  lemma {:induction false} DnsblSettles(s: Snapshot, n: nat)
    ensures forall i :: 1 <= i < n ==>
      Runs(DnsblRepair.FixDnsbl, s, n)[i] == NextCall(DnsblRepair.FixDnsbl(s), DnsblRepair.DnsblFile)
  {
    if n > 0 {
      var t := DnsblRepair.FixDnsbl(s).after;
      DnsblRepair.Idempotent(s);
      RunsAtFixpoint(DnsblRepair.FixDnsbl, t, n - 1);
      assert Runs(DnsblRepair.FixDnsbl, s, n)[1..] == Runs(DnsblRepair.FixDnsbl, t, n - 1);
    }
  }

  /** After the first call of `fix_reputation_providers`, every further call
      changes nothing and ends as `NextCall` says: False, the first call's
      exception, or True again for a file that cannot be read. */
  lemma {:induction false} ReputationSettles(s: Snapshot, n: nat)
    ensures forall i :: 1 <= i < n ==>
      Runs(ReputationRepair.FixReputation, s, n)[i]
        == NextCall(ReputationRepair.FixReputation(s), ReputationRepair.ProvidersFile)
  {
    if n > 0 {
      var t := ReputationRepair.FixReputation(s).after;
      ReputationRepair.Idempotent(s);
      RunsAtFixpoint(ReputationRepair.FixReputation, t, n - 1);
      assert Runs(ReputationRepair.FixReputation, s, n)[1..] == Runs(ReputationRepair.FixReputation, t, n - 1);
    }
  }

  /** A readable DNSBL file is settled after one call: every later call in
      the series returns False; an unreadable one is reported fixed on every
      call of the series. */
  lemma {:induction false} DnsblSeries(s: Snapshot, n: nat)
    requires DnsblRepair.FixDnsbl(s).result.Returned?
    ensures !IsUnreadable(Lookup(s, DnsblRepair.DnsblFile)) ==>
      forall i :: 1 <= i < n ==> Runs(DnsblRepair.FixDnsbl, s, n)[i].result == Returned(false)
    ensures IsUnreadable(Lookup(s, DnsblRepair.DnsblFile)) ==>
      forall i :: 0 <= i < n ==> Runs(DnsblRepair.FixDnsbl, s, n)[i].result == Returned(true)
  {
    DnsblSettles(s, n);
  }

  /** A readable providers file is settled after one call that returns:
      every later call returns False; an unreadable one is reported fixed on
      every call of the series. */
  lemma {:induction false} ReputationSeries(s: Snapshot, n: nat)
    requires ReputationRepair.FixReputation(s).result.Returned?
    ensures !IsUnreadable(Lookup(s, ReputationRepair.ProvidersFile)) ==>
      forall i :: 1 <= i < n ==> Runs(ReputationRepair.FixReputation, s, n)[i].result == Returned(false)
    ensures IsUnreadable(Lookup(s, ReputationRepair.ProvidersFile)) ==>
      forall i :: 0 <= i < n ==> Runs(ReputationRepair.FixReputation, s, n)[i].result == Returned(true)
  {
    ReputationSettles(s, n);
  }

  /** A readable DNSBL file whose decoding raises an uncaught error is never
      repaired: every call of a series raises and leaves the directory as it was. */
  lemma {:induction false} DnsblDecodeFailureForever(s: Snapshot, n: nat)
    requires Lookup(s, DnsblRepair.DnsblFile).File? && Lookup(s, DnsblRepair.DnsblFile).readable
    requires DecodeEscapes(Lookup(s, DnsblRepair.DnsblFile).contents)
    ensures forall i :: 0 <= i < n ==>
      Runs(DnsblRepair.FixDnsbl, s, n)[i].after == s && Runs(DnsblRepair.FixDnsbl, s, n)[i].result.Raised?
  {
    DnsblSettles(s, n);
  }

  /** A readable providers file whose decoding or whose empty-providers test
      raises an uncaught error is never repaired: every call of a series
      raises and leaves the directory as it was. */
  lemma {:induction false} ReputationRaiseForever(s: Snapshot, n: nat)
    requires ReputationRepair.FixReputation(s).result.Raised?
    ensures forall i :: 0 <= i < n ==>
      Runs(ReputationRepair.FixReputation, s, n)[i] == ReputationRepair.FixReputation(s)
    ensures ReputationRepair.FixReputation(s).after == s
  {
    ReputationSettles(s, n);
  }

  /** The two scripts touch different files: running them in either order
      gives each the same outcome and leaves the same directory. */
  lemma Independent(s: Snapshot)
    ensures ReputationRepair.FixReputation(DnsblRepair.FixDnsbl(s).after).result
         == ReputationRepair.FixReputation(s).result
    ensures DnsblRepair.FixDnsbl(ReputationRepair.FixReputation(s).after).result
         == DnsblRepair.FixDnsbl(s).result
    ensures ReputationRepair.FixReputation(DnsblRepair.FixDnsbl(s).after).after
         == DnsblRepair.FixDnsbl(ReputationRepair.FixReputation(s).after).after
  {
    var d := DnsblRepair.FixDnsbl(s);
    var p := ReputationRepair.FixReputation(s);
    var df, pf := DnsblRepair.DnsblFile, ReputationRepair.ProvidersFile;
    var dj, pj := DnsblRepair.FallbackJson(), ReputationRepair.Fallback();
    DnsblRepair.Effect(s);
    ReputationRepair.Effect(s);
    DnsblRepair.Effect(p.after);
    ReputationRepair.Effect(d.after);
    DnsblRepair.DependsOnFile(s, p.after);
    ReputationRepair.DependsOnFile(s, d.after);
    if d.result == Returned(true) && p.result == Returned(true) {
      OverwritesCommute(s, df, dj, pf, pj);
    }
  }
}
