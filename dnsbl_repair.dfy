/** `fix_dnsbl_list`: repairs the cached list of DNS blocklist hostnames. */
module DnsblRepair {
  import opened JsonValue
  import opened CacheStore

  /** The resource file's name in the cache directory. */
  const DnsblFile: string := "dnsbl_list.json"

  /** The built-in list of DNSBL zones written when the cache is unusable. */
  function Fallback(): (r: seq<string>)
    ensures |r| == 36
  {
    [ // Spamhaus
      "zen.spamhaus.org", "sbl.spamhaus.org", "xbl.spamhaus.org",
      "pbl.spamhaus.org", "sbl-xbl.spamhaus.org", "dbl.spamhaus.org",
      // SpamCop
      "bl.spamcop.net",
      // Barracuda
      "b.barracudacentral.org",
      // SORBS
      "dnsbl.sorbs.net", "spam.dnsbl.sorbs.net", "web.dnsbl.sorbs.net",
      "zombie.dnsbl.sorbs.net", "dul.dnsbl.sorbs.net", "smtp.dnsbl.sorbs.net",
      "new.spam.dnsbl.sorbs.net",
      // URIBL
      "multi.uribl.com", "black.uribl.com", "red.uribl.com",
      "uribl.spameatingmonkey.net",
      // others
      "dnsbl-1.uceprotect.net", "dnsbl-2.uceprotect.net", "dnsbl-3.uceprotect.net",
      "dnsbl.dronebl.org", "cbl.abuseat.org", "bl.deadbeef.com",
      "bl.emailbasura.org", "bl.spamcannibal.org", "blackholes.mail-abuse.org",
      "bogons.cymru.com", "combined.abuse.ch", "db.wpbl.info",
      "rbl.interserver.net", "relays.mail-abuse.org", "truncate.gbudb.net",
      "psbl.surriel.com", "mailspike.net" ]
  }

  /** The fallback list as the JSON document that is written: a list of 36
      strings, in the order above. */
  function FallbackJson(): (j: Json)
    ensures j.JArray? && |j.items| == 36
    ensures forall i :: 0 <= i < |j.items| ==> j.items[i] == JString(Fallback()[i])
  {
    var hosts := Fallback();
    JArray(seq(|hosts|, i requires 0 <= i < |hosts| => JString(hosts[i])))
  }

  /** `isinstance(current_data, list) and len(current_data) < len(fallback_data)`:
      a list is incomplete exactly when it is shorter than the fallback, whatever
      its elements are, and a decoded value of any other kind never is. */
  predicate IsIncompleteList(current: Json)
    ensures current.JArray? ==> (IsIncompleteList(current) <==> |current.items| < 36)
    ensures !current.JArray? ==> !IsIncompleteList(current)
  {
    current.JArray? && |current.items| < |Fallback()|
  }

  /** One call of `fix_dnsbl_list` on the cache directory `s`. */
  function FixDnsbl(s: Snapshot): (r: Run)
    // which file states trigger a rewrite
    ensures Lookup(s, DnsblFile) == Absent ==> r.result == Returned(true)
    ensures IsUnreadable(Lookup(s, DnsblFile)) ==> r.result == Returned(true)
    ensures Lookup(s, DnsblFile) == File(true, Malformed) ==> r.result == Returned(true)
    ensures Lookup(s, DnsblFile) == File(true, NotText) ==> r == Run(s, Raised(UnicodeDecodeError))
    ensures Lookup(s, DnsblFile) == File(true, TooDeep) ==> r == Run(s, Raised(RecursionError))
    ensures Lookup(s, DnsblFile) == File(true, LongInteger) ==> r == Run(s, Raised(ValueError))
    ensures r.result.Raised? <==>
      Lookup(s, DnsblFile).File? && Lookup(s, DnsblFile).readable && DecodeEscapes(Lookup(s, DnsblFile).contents)
    ensures forall j :: Lookup(s, DnsblFile) == File(true, Document(j)) ==>
      (r.result == Returned(true) <==> j.JArray? && |j.items| < 36)
    // after True the file holds exactly the fallback; after anything else nothing changed
    ensures r.result == Returned(true) ==>
      Lookup(r.after, DnsblFile).File? && Lookup(r.after, DnsblFile).contents == Document(FallbackJson())
    ensures r.result != Returned(true) ==> r.after == s
    // a write neither grants nor revokes read permission
    ensures Lookup(s, DnsblFile).File? ==> Lookup(r.after, DnsblFile).readable == Lookup(s, DnsblFile).readable
    ensures Lookup(s, DnsblFile) == Absent ==> Lookup(r.after, DnsblFile).readable
    // only the DNSBL file and the directory itself are ever touched
    ensures forall name :: name != DnsblFile ==> Lookup(r.after, name) == Lookup(s, name)
    ensures r.after.dirPresent == (s.dirPresent || Lookup(s, DnsblFile) == Absent)
  {
    match Lookup(s, DnsblFile)
    case Absent => Run(Save(WithDirectory(s), DnsblFile, FallbackJson()), Returned(true))
    case File(_, _) =>
      match LoadOf(Lookup(s, DnsblFile))
      case Loaded(current) =>
        if IsIncompleteList(current) then Run(Save(s, DnsblFile, FallbackJson()), Returned(true))
        else Run(s, Returned(false))
      case Failed(e) =>
        if Caught(e) then Run(Save(s, DnsblFile, FallbackJson()), Returned(true))
        else Run(s, Raised(e))
  }

  /** A second call right after any call writes nothing new: it repeats the
      first call's exception, returns True again when the file cannot be read
      (rewriting the same fallback over it), and otherwise returns False; the
      directory stays as the first call left it. */
  lemma Idempotent(s: Snapshot)
    ensures FixDnsbl(FixDnsbl(s).after) == NextCall(FixDnsbl(s), DnsblFile)
  {
  }

  /** A file this process cannot read is rewritten and reported fixed on
      every call, and the rewrite leaves it unreadable. */
  lemma UnreadableNeverSettles(s: Snapshot)
    requires IsUnreadable(Lookup(s, DnsblFile))
    ensures FixDnsbl(s).result == Returned(true)
    ensures IsUnreadable(Lookup(FixDnsbl(s).after, DnsblFile))
    ensures FixDnsbl(FixDnsbl(s).after).result == Returned(true)
  {
  }

  /** The whole effect of a call: when it returns True, the fallback is
      written, after `os.makedirs` if the file was absent; otherwise nothing
      changes. */
  lemma Effect(s: Snapshot)
    ensures FixDnsbl(s).after
         == if FixDnsbl(s).result == Returned(true)
            then Overwrite(s, DnsblFile, FallbackJson())
            else s
  {
  }

  /** How a call ends depends on nothing but the state of its own file. */
  lemma DependsOnFile(s: Snapshot, t: Snapshot)
    requires Lookup(s, DnsblFile) == Lookup(t, DnsblFile)
    ensures FixDnsbl(s).result == FixDnsbl(t).result
  {
  }

  /** Worked instances of the contract of `IsIncompleteList`: 35
      entries of anything are replaced, 36 entries of anything are kept, and
      an empty dict or an empty string is kept. */
  lemma IsIncompleteListExamples(x: Json)
    ensures IsIncompleteList(JArray(seq(35, _ => x)))
    ensures !IsIncompleteList(JArray(seq(36, _ => x)))
    ensures !IsIncompleteList(JObject(map[]))
    ensures !IsIncompleteList(JString(""))
  {
  }

  /** A repair keeps the directory a real directory listing. */
  lemma KeepsWellFormed(s: Snapshot)
    requires WellFormed(s)
    ensures WellFormed(FixDnsbl(s).after)
  {
  }

  /** `fix_dnsbl_list()` on the cache directory `cache`. */
  method FixDnsblList(cache: CacheDir) returns (r: Outcome)
    requires WellFormed(cache.Model())
    modifies cache
    ensures Run(cache.Model(), r) == FixDnsbl(old(cache.Model()))
    ensures WellFormed(cache.Model())
  {
    var fallback := FallbackJson();
    var present := cache.Exists(DnsblFile);
    if present {
      var loaded := cache.Load(DnsblFile);
      match loaded
      case Loaded(current) =>
        if IsIncompleteList(current) {
          cache.Write(DnsblFile, fallback);
          r := Returned(true);
        } else {
          r := Returned(false);
        }
      case Failed(e) =>
        if Caught(e) {
          cache.Write(DnsblFile, fallback);
          r := Returned(true);
        } else {
          r := Raised(e);
        }
    } else {
      cache.MakeDirs();
      cache.Write(DnsblFile, fallback);
      r := Returned(true);
    }
    KeepsWellFormed(old(cache.Model()));
  }
}
