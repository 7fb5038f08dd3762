# email_deliverability cache repair, modelled in Dafny

The email_deliverability package keeps its reference datasets as JSON files in
the per-user cache directory `~/.email_deliverability`. Two repair scripts
check one file each and, when the file is unusable, overwrite it with a
built-in fallback dataset. Each script returns whether it wrote anything.

- `fix_dnsbl_list` handles `dnsbl_list.json`, a flat list of DNS blocklist
  zones. It rewrites the file when the file is absent, cannot be read, is not
  valid JSON, or is a list shorter than the 36-entry fallback. Any other
  decoded value is kept: a dict, a string, or a list of at least 36 entries of
  any kind.
- `fix_reputation_providers` handles `ip_reputation_providers.json`, a dict
  whose `"providers"` key holds `{name, url}` records. It rewrites the file
  when the file is absent, cannot be read, is not valid JSON, or is a dict
  whose `"providers"` value has length 0. Any other decoded value is kept.

A file this process may write but not read is rewritten, and reported
`True`, on every call: the rewrite keeps its permissions, so it never becomes
readable.

The model has five modules:

- `JsonValue` (`json.dfy`): decoded JSON values, and Python's `len` on them.
- `CacheStore` (`cache_store.dfy`): the cache directory.
  - `Snapshot` is its value: whether the directory exists, plus a map from
    file name to `FileState`.
  - `FileState` is `Absent` or `File(readable, contents)`. An unreadable
    file makes `open(path, 'r')` raise `IOError`.
  - `Contents` is one of:
    - `NotText`: reading raises `UnicodeDecodeError`;
    - `Malformed`: decoding raises `JSONDecodeError`;
    - `TooDeep`: valid JSON nested deeper than Python's recursion limit,
      so decoding raises `RecursionError`;
    - `LongInteger`: valid JSON holding an integer literal longer than the
      interpreter's digit limit, so decoding raises `ValueError`;
    - `Document(json)`: the decoded value.
  - A write replaces the contents and keeps the read permission. So a
    write-only file stays unreadable after it is rewritten.
  - The class `CacheDir` holds the same two fields for in-place update. Its
    methods model `os.path.exists`, `open` plus `json.load`, `json.dump` and
    `os.makedirs`.
- `DnsblRepair` and `ReputationRepair` (`dnsbl_repair.dfy`,
  `reputation_repair.dfy`): one module per script.
  - The fallback dataset is a function whose contract gives its size.
  - The script's test is a pure function.
  - `FixDnsbl` and `FixReputation` are pure specifications of one call, from
    a `Snapshot` to a `Run` (the new snapshot plus the `Outcome`).
  - `FixDnsblList` and `FixReputationProviders` are the imperative routines
    over a `CacheDir`. Each is proved to do exactly what its specification
    says.
- `Convergence` (`convergence.dfy`): after the first call, repeated calls
  change nothing. Each later call ends in one of three ways:
  - it returns `False`;
  - it raises the first call's exception again: `UnicodeDecodeError`,
    `RecursionError` or `ValueError` during decoding, or `TypeError` from the
    test in `fix_reputation_providers`;
  - it returns `True`, for an unreadable file, as every call on that file
    does.

  The two scripts do not interfere with each other.

How a call ends is an `Outcome`. `Returned(b)` is the script's boolean.
`Raised(e)` is an exception that the script does not catch. The model has
four such exceptions:
- `UnicodeDecodeError`, `RecursionError` and `ValueError` are raised by
  `json.load`. None of them is a `JSONDecodeError` or an `IOError`, so the
  `except (json.JSONDecodeError, IOError)` clause misses them.
- `TypeError` comes from `len` applied to a `"providers"` value that has no
  length.

The package's resource manager is meant to have a stricter validator with
per-resource minimum sizes, an upstream fetch, `UPDATED`/`ERROR` statuses and
atomic writes. The two scripts do none of this, and the model follows the
scripts. For
example, `fix_reputation_providers` keeps `{"providers": [1]}` and
`{"other": []}`, and it rewrites `{"providers": ""}`. `fix_dnsbl_list` keeps a
dict.

## Model

| member | source | states |
|---|---|---|
| `JsonValue.PyLen` | scripts/fix_reputation_providers.py:46 | `len` succeeds exactly on strings, lists and dicts and gives their size; on numbers, booleans and null it raises `TypeError` |
| `CacheStore.Lookup` | scripts/fix_dnsbl_list.py:70 | in a well-formed directory a path exists exactly when its name is listed, and an existing path's state is the listed one |
| `CacheStore.LoadOf` | scripts/fix_dnsbl_list.py:73-74 | reading yields the decoded document exactly when the file is readable and holds a JSON document. Otherwise it yields `IOError` (absent or unreadable), `JSONDecodeError` (malformed), `UnicodeDecodeError` (not text), `RecursionError` (nested too deep) or `ValueError` (integer too long) |
| `CacheStore.Caught` | scripts/fix_dnsbl_list.py:90 | the `except` clause lets exactly `UnicodeDecodeError`, `RecursionError`, `ValueError` and `TypeError` escape |
| `CacheStore.WithDirectory` | scripts/fix_dnsbl_list.py:101 | afterwards the directory exists and every file is as it was (`exist_ok=True`) |
| `CacheStore.Save` | scripts/fix_dnsbl_list.py:103-104 | the named file then holds the written document. A new file is readable; an existing file keeps its read permission. No other file and not the directory changes |
| `CacheStore.Overwrite` | scripts/fix_dnsbl_list.py:99-104 | the same as `Save`, and the directory exists afterwards when the file was absent |
| `CacheStore.CacheDir.Exists` | scripts/fix_dnsbl_list.py:70 | true exactly when the file is not absent; a file that exists implies the directory exists |
| `CacheStore.CacheDir.Load` | scripts/fix_dnsbl_list.py:73-74 | returns the decoded document exactly when the file is readable and holds one, and otherwise the exception that reading raises |
| `CacheStore.CacheDir.Write` | scripts/fix_dnsbl_list.py:81-82 | the new state is `Save` of the old one: the file holds the written value with its read permission kept; nothing else changes; the directory must exist |
| `CacheStore.CacheDir.MakeDirs` | scripts/fix_dnsbl_list.py:101 | the new state is `WithDirectory` of the old one |
| `DnsblRepair.Fallback` | scripts/fix_dnsbl_list.py:15-63 | the fallback list has exactly 36 hostnames |
| `DnsblRepair.FallbackJson` | scripts/fix_dnsbl_list.py:82 | the written document is a list of 36 strings, the fallback hostnames in order |
| `DnsblRepair.IsIncompleteList` | scripts/fix_dnsbl_list.py:77 | for every list, true exactly when it has fewer than 36 entries, whatever they are; false for every non-list value |
| `DnsblRepair.IsIncompleteListExamples` | scripts/fix_dnsbl_list.py:77 | four instances: a list of 35 equal entries is incomplete; one of 36, an empty dict and an empty string are not |
| `DnsblRepair.FixDnsbl` | scripts/fix_dnsbl_list.py:70-107 | absent, unreadable or malformed means rewrite and `True`. A readable document means `True` exactly when it is a list shorter than 36. The call raises, and changes nothing, exactly when decoding a readable file raises an uncaught error: `UnicodeDecodeError` for bytes that are not text, `RecursionError` for nesting too deep, `ValueError` for an over-long integer. After `True` the file holds the fallback, with its read permission kept; otherwise the directory is unchanged. No other file changes; the directory is created only for an absent file |
| `DnsblRepair.Effect` | scripts/fix_dnsbl_list.py:81-107 | a `True` call is exactly the overwrite with the fallback, with the directory created first if the file was absent; any other call changes nothing |
| `DnsblRepair.DependsOnFile` | scripts/fix_dnsbl_list.py:66-67 | the outcome depends only on the state of `dnsbl_list.json` |
| `DnsblRepair.Idempotent` | scripts/fix_dnsbl_list.py:77-98 | a second call right after any call changes nothing. It repeats the first call's exception, returns `True` again if the file is unreadable, and otherwise returns `False` |
| `DnsblRepair.UnreadableNeverSettles` | scripts/fix_dnsbl_list.py:90-98 | an unreadable file is rewritten and reported `True`, stays unreadable, and is reported `True` again on the next call |
| `DnsblRepair.KeepsWellFormed` | scripts/fix_dnsbl_list.py:99-104 | after a call, every file still lies in an existing directory |
| `DnsblRepair.FixDnsblList` | scripts/fix_dnsbl_list.py:12-107 | the imperative routine's new directory state and outcome are exactly those of `FixDnsbl` on the old state |
| `ReputationRepair.Provider` | scripts/fix_reputation_providers.py:17 | each fallback entry is a dict with exactly the fields `name` and `url`, holding the given name and URL as strings |
| `ReputationRepair.FallbackProviders` | scripts/fix_reputation_providers.py:16-31 | there are exactly 14 fallback records, each a `{name, url}` record |
| `ReputationRepair.Fallback` | scripts/fix_reputation_providers.py:15-32 | the fallback is a dict whose only key is `"providers"`, holding the 14 records; its length is 14 |
| `ReputationRepair.EmptyProviders` | scripts/fix_reputation_providers.py:46 | a non-dict, or a dict without `"providers"`, gives `False`. Otherwise the result is `True` exactly when the value's length is 0. It raises `TypeError` exactly when the value has no length |
| `ReputationRepair.EmptyProvidersExamples` | scripts/fix_reputation_providers.py:46 | an empty string or an empty dict under `"providers"` counts as empty and a number raises; a one-element list, a dict without the key or a top-level list is kept |
| `ReputationRepair.FixReputation` | scripts/fix_reputation_providers.py:39-76 | absent, unreadable or malformed means rewrite and `True`. A readable document's outcome is that of the empty-providers test. A readable file whose decoding raises `UnicodeDecodeError`, `RecursionError` or `ValueError` makes the call raise that error. Any uncaught exception changes nothing. After `True` the file holds the fallback, with its read permission kept; after `False` nothing changed. No other file changes; the directory is created only for an absent file |
| `ReputationRepair.Effect` | scripts/fix_reputation_providers.py:50-76 | a `True` call is exactly the overwrite with the fallback, with the directory created first if the file was absent; any other call changes nothing |
| `ReputationRepair.DependsOnFile` | scripts/fix_reputation_providers.py:35-36 | the outcome depends only on the state of `ip_reputation_providers.json` |
| `ReputationRepair.Idempotent` | scripts/fix_reputation_providers.py:46-67 | a second call right after any call changes nothing. It repeats the first call's exception, returns `True` again if the file is unreadable, and otherwise returns `False` (the fallback has 14 providers) |
| `ReputationRepair.UnreadableNeverSettles` | scripts/fix_reputation_providers.py:59-67 | an unreadable file is rewritten and reported `True`, stays unreadable, and is reported `True` again on the next call |
| `ReputationRepair.KeepsWellFormed` | scripts/fix_reputation_providers.py:68-73 | after a call, every file still lies in an existing directory |
| `ReputationRepair.FixReputationProviders` | scripts/fix_reputation_providers.py:12-76 | the imperative routine's new directory state and outcome are exactly those of `FixReputation` on the old state |
| `Convergence.RunsAtFixpoint` | scripts/fix_dnsbl_list.py:86-88 | if a call leaves the directory as it found it, any number of further calls each end the same way and change nothing |
| `Convergence.DnsblSettles` | scripts/fix_dnsbl_list.py:77-98 | in any series of `fix_dnsbl_list` calls, every call after the first leaves what the first call left. It returns `False`, repeats the first's exception, or returns `True` for an unreadable file |
| `Convergence.ReputationSettles` | scripts/fix_reputation_providers.py:46-67 | in any series of `fix_reputation_providers` calls, every call after the first leaves what the first call left. It returns `False`, repeats the first's exception, or returns `True` for an unreadable file |
| `Convergence.DnsblSeries` | scripts/fix_dnsbl_list.py:86-98 | in a series that does not raise, every call after the first returns `False` when the file was readable, and every call returns `True` when it was not |
| `Convergence.ReputationSeries` | scripts/fix_reputation_providers.py:55-67 | in a series that does not raise, every call after the first returns `False` when the file was readable, and every call returns `True` when it was not |
| `Convergence.DnsblDecodeFailureForever` | scripts/fix_dnsbl_list.py:73-74 | a readable file whose decoding raises an uncaught error raises on every call of a series and is never written |
| `Convergence.ReputationRaiseForever` | scripts/fix_reputation_providers.py:42-46 | a call that raises, in decoding or in the empty-providers test, changes nothing, and every call of the series raises the same way |
| `Convergence.Independent` | scripts/fix_reputation_providers.py:35-36 | the two scripts write different files: running them in either order gives each the same outcome and leaves the same directory |
## Left out

- Logging and the `print` of the `__main__` blocks: no effect on the files or the return value.
- Home-directory expansion: the model is the cache directory itself, and files are keyed by name.
- JSON text: parsing and the 2-space serialisation are not modelled. A file is its decoded value or the error that decoding raises. A written value is assumed to decode back to itself.
- JSON numbers keep only their literal text, because neither script uses a number's value.
- `len` of a string: Dafny characters are Unicode scalar values. For every string Dafny can represent, this matches Python 3's code-point length. A decoded `str` holding a lone surrogate such as `"\ud800"` cannot be represented; its length plays no part beyond the test for 0.
- Failures of the write itself (`open(path, 'w')` or `json.dump` raising, for instance a read-only file or a full disk) are not modelled; the model's writes always succeed once the directory exists. In the scripts, the write after a short list or empty providers sits inside the `try`, so an `IOError` from it is caught and the write is tried again in the `except` branch. A failure of the write in the `except` branch, or of the write for an absent file, escapes uncaught.
- `CacheStore.LoadOf`: `TooDeep` and `LongInteger` are separate file contents, not derived from a document. The model does not compute Python's recursion limit or digit limit, and it lets `Document` hold values of any depth and number literals of any length. Other decode-time errors, such as `MemoryError` on a huge file, are not modelled.
- Read permission is the only reason the model has for `open(path, 'r')` to fail on an existing file. Other read errors that stay the same across calls behave the same way: the file is rewritten and reported `True` on every call.
- Failures of `os.makedirs` are not modelled either.
- The same path being a directory, or being changed by another process between check and write, is not modelled. There is no concurrency in the model.
- Non-atomic writes: a reader observing a half-written file is not modelled. The scripts write in place.
- The validator with `min_items`, the upstream fetch, the `UPDATED`/`ERROR` statuses and the refresh of all resources belong to `email_deliverability.resource_manager`, which is not part of this model. `scripts/verify_resources.py` prints "Updating all resources...", calls that module's `update_deliverability_resources()`, which refreshes the cache, and prints the results it returns.
- `scripts/debug_resources.py` prints what that module reports for each resource. It also lists the cache directory, prints each `.json` file's size, loads each one and prints whether it is a dict (with its keys), a list (with its length), another value or invalid JSON. It never writes, so it is console output only.
- `scripts/publish_to_pypi.py`, `setup_docs.py` and `docs/conf.py`: packaging and documentation plumbing with no bearing on the cache.
