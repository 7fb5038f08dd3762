/** `fix_reputation_providers`: repairs the cached directory of IP-reputation
    providers, a dict whose "providers" key holds `{name, url}` records. */
module ReputationRepair {
  import opened JsonValue
  import opened CacheStore

  /** The resource file's name in the cache directory. */
  const ProvidersFile: string := "ip_reputation_providers.json"

  /** One `{"name": ..., "url": ...}` record. */
  function Provider(name: string, url: string): (p: Json)
    ensures IsProviderRecord(p)
    ensures p.fields["name"] == JString(name) && p.fields["url"] == JString(url)
  {
    JObject(map["name" := JString(name), "url" := JString(url)])
  }

  /** A dict with exactly the keys "name" and "url", both strings. */
  predicate IsProviderRecord(p: Json) {
    && p.JObject?
    && p.fields.Keys == {"name", "url"}
    && p.fields["name"].JString?
    && p.fields["url"].JString?
  }

  /** The built-in provider records written when the cache is unusable. */
  function FallbackProviders(): (r: seq<Json>)
    ensures |r| == 14
    ensures forall i :: 0 <= i < |r| ==> IsProviderRecord(r[i])
  {
    [ Provider("Spamhaus", "https://www.spamhaus.org/"),
      Provider("SpamCop", "https://www.spamcop.net/"),
      Provider("Barracuda", "https://www.barracuda.com/"),
      Provider("SORBS", "http://www.sorbs.net/"),
      Provider("URIBL", "https://uribl.com/"),
      Provider("SURBL", "https://www.surbl.org/"),
      Provider("SpamRats", "https://www.spamrats.com/"),
      Provider("MailSpike", "https://mailspike.org/"),
      Provider("Invaluement", "https://www.invaluement.com/"),
      Provider("Passive Spam Block List", "https://psbl.org/"),
      Provider("Composite Blocking List", "https://www.abuseat.org/"),
      Provider("Proofpoint IP Reputation", "https://www.proofpoint.com/"),
      Provider("Cloudmark", "https://www.cloudmark.com/"),
      Provider("TrustedSource", "https://www.trustedsource.org/") ]
  }

  /** The fallback document: a dict whose only key is "providers", holding the
      14 records above. */
  function Fallback(): (j: Json)
    ensures j.JObject? && j.fields.Keys == {"providers"}
    ensures j.fields["providers"] == JArray(FallbackProviders())
    ensures PyLen(j.fields["providers"]) == Some(14)
  {
    JObject(map["providers" := JArray(FallbackProviders())])
  }

  /** `isinstance(current_data, dict) and "providers" in current_data and
      len(current_data["providers"]) == 0`, evaluated left to right: `len` is
      reached only for a dict that has the key, and raises `TypeError` when
      the value has no length. */
  function EmptyProviders(current: Json): (r: Outcome)
    ensures r.Raised? ==> r.error == TypeError
    ensures !current.JObject? || "providers" !in current.fields ==> r == Returned(false)
    ensures current.JObject? && "providers" in current.fields ==>
      && (r == Returned(true) <==> PyLen(current.fields["providers"]) == Some(0))
      && (r.Raised? <==> PyLen(current.fields["providers"]).None?)
  {
    if !current.JObject? then Returned(false)
    else if "providers" !in current.fields then Returned(false)
    else match PyLen(current.fields["providers"])
      case None => Raised(TypeError)
      case Some(n) => Returned(n == 0)
  }

  /** One call of `fix_reputation_providers` on the cache directory `s`. */
  function FixReputation(s: Snapshot): (r: Run)
    // which file states trigger a rewrite
    ensures Lookup(s, ProvidersFile) == Absent ==> r.result == Returned(true)
    ensures IsUnreadable(Lookup(s, ProvidersFile)) ==> r.result == Returned(true)
    ensures Lookup(s, ProvidersFile) == File(true, Malformed) ==> r.result == Returned(true)
    ensures forall j :: Lookup(s, ProvidersFile) == File(true, Document(j)) ==>
      r.result == EmptyProviders(j)
    // the uncaught exceptions leave everything as it was
    ensures Lookup(s, ProvidersFile) == File(true, NotText) ==> r == Run(s, Raised(UnicodeDecodeError))
    ensures Lookup(s, ProvidersFile) == File(true, TooDeep) ==> r == Run(s, Raised(RecursionError))
    ensures Lookup(s, ProvidersFile) == File(true, LongInteger) ==> r == Run(s, Raised(ValueError))
    ensures r.result.Raised? ==> r.after == s
    // after True the file holds exactly the fallback; after False nothing changed
    ensures r.result == Returned(true) ==>
      Lookup(r.after, ProvidersFile).File? && Lookup(r.after, ProvidersFile).contents == Document(Fallback())
    ensures r.result != Returned(true) ==> r.after == s
    // a write neither grants nor revokes read permission
    ensures Lookup(s, ProvidersFile).File? ==>
      Lookup(r.after, ProvidersFile).readable == Lookup(s, ProvidersFile).readable
    ensures Lookup(s, ProvidersFile) == Absent ==> Lookup(r.after, ProvidersFile).readable
    // only the providers file and the directory itself are ever touched
    ensures forall name :: name != ProvidersFile ==> Lookup(r.after, name) == Lookup(s, name)
    ensures r.after.dirPresent == (s.dirPresent || Lookup(s, ProvidersFile) == Absent)
  {
    match Lookup(s, ProvidersFile)
    case Absent => Run(Save(WithDirectory(s), ProvidersFile, Fallback()), Returned(true))
    case File(_, _) =>
      match LoadOf(Lookup(s, ProvidersFile))
      case Loaded(current) =>
        (match EmptyProviders(current)
         case Returned(empty) =>
           if empty then Run(Save(s, ProvidersFile, Fallback()), Returned(true))
           else Run(s, Returned(false))
         case Raised(e) => Run(s, Raised(e)))
      case Failed(e) =>
        if Caught(e) then Run(Save(s, ProvidersFile, Fallback()), Returned(true))
        else Run(s, Raised(e))
  }

  /** A second call right after any call writes nothing new: it repeats the
      first call's exception, returns True again when the file cannot be read
      (rewriting the same fallback over it), and otherwise returns False,
      because the fallback's 14 providers are not empty; the directory stays
      as the first call left it. */
  lemma Idempotent(s: Snapshot)
    ensures FixReputation(FixReputation(s).after) == NextCall(FixReputation(s), ProvidersFile)
  {
  }

  /** A file this process cannot read is rewritten and reported fixed on
      every call, and the rewrite leaves it unreadable. */
  lemma UnreadableNeverSettles(s: Snapshot)
    requires IsUnreadable(Lookup(s, ProvidersFile))
    ensures FixReputation(s).result == Returned(true)
    ensures IsUnreadable(Lookup(FixReputation(s).after, ProvidersFile))
    ensures FixReputation(FixReputation(s).after).result == Returned(true)
  {
  }

  /** The whole effect of a call: when it returns True, the fallback is
      written, after `os.makedirs` if the file was absent; otherwise nothing
      changes. */
  lemma Effect(s: Snapshot)
    ensures FixReputation(s).after
         == if FixReputation(s).result == Returned(true)
            then Overwrite(s, ProvidersFile, Fallback())
            else s
  {
  }

  /** How a call ends depends on nothing but the state of its own file. */
  lemma DependsOnFile(s: Snapshot, t: Snapshot)
    requires Lookup(s, ProvidersFile) == Lookup(t, ProvidersFile)
    ensures FixReputation(s).result == FixReputation(t).result
  {
  }

  /** What the empty-providers test makes of some shapes that a stricter
      validator would treat differently: an empty string or an empty dict
      under "providers" counts as empty, a number there raises, and a list
      (even of one non-record), a dict without the key or a top-level list
      are all kept. */
  lemma EmptyProvidersExamples(x: Json)
    ensures EmptyProviders(JObject(map["providers" := JString("")])) == Returned(true)
    ensures EmptyProviders(JObject(map["providers" := JObject(map[])])) == Returned(true)
    ensures EmptyProviders(JObject(map["providers" := JNumber("0")])) == Raised(TypeError)
    ensures EmptyProviders(JObject(map["providers" := JArray([x])])) == Returned(false)
    ensures EmptyProviders(JObject(map["other" := JArray([])])) == Returned(false)
    ensures EmptyProviders(JArray([])) == Returned(false)
  {
  }

  /** A repair keeps the directory a real directory listing. */
  lemma KeepsWellFormed(s: Snapshot)
    requires WellFormed(s)
    ensures WellFormed(FixReputation(s).after)
  {
  }

  /** `fix_reputation_providers()` on the cache directory `cache`. */
  method FixReputationProviders(cache: CacheDir) returns (r: Outcome)
    requires WellFormed(cache.Model())
    modifies cache
    ensures Run(cache.Model(), r) == FixReputation(old(cache.Model()))
    ensures WellFormed(cache.Model())
  {
    var fallback := Fallback();
    var present := cache.Exists(ProvidersFile);
    if present {
      var loaded := cache.Load(ProvidersFile);
      match loaded
      case Loaded(current) =>
        var test := EmptyProviders(current);
        match test {
          case Returned(empty) =>
            if empty {
              cache.Write(ProvidersFile, fallback);
              r := Returned(true);
            } else {
              r := Returned(false);
            }
          case Raised(e) =>
            r := Raised(e);
        }
      case Failed(e) =>
        if Caught(e) {
          cache.Write(ProvidersFile, fallback);
          r := Returned(true);
        } else {
          r := Raised(e);
        }
    } else {
      cache.MakeDirs();
      cache.Write(ProvidersFile, fallback);
      r := Returned(true);
    }
    KeepsWellFormed(old(cache.Model()));
  }
}
