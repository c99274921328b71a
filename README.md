# fmrest utilities — a verified model

This project models the two pieces of logic in `fmrest/utils.py` of the
python-fmrest client for the FileMaker Data API:

- `build_portal_params(portals, names_as_string)` turns a list of portal
  descriptors (`name`, optional `offset`, optional `range`) into the query
  parameters the server expects. `portal` holds the names, either as a
  list or as the text `["P1", "P2"]`. Each descriptor also adds
  `offset.<name>` (default 1) and `range.<name>` (default 50).
- `cache_generator(iterator, cache)` wraps an iterator. It appends every
  value to `cache[0]` before yielding it. It sets `cache[1] = True` once the
  iterator is exhausted.

Files:

- `wrappers.dfy`: module `Wrappers`, with `Option` for absent descriptor
  fields and for pulls that produce nothing.
- `portal_selector.dfy`: module `PortalSelector`, the bracketed, quoted text
  form of the names (line 63). It also holds a reader for that text, used to
  state what the text carries.
- `portal_params.dfy`: module `PortalParams`. The dict is a
  `map<string, Value>`. The function `PortalParams` specifies it as the
  `portal` entry followed by a fold of the per-descriptor writes. The method
  `BuildPortalParams` runs the loop of lines 68-70 and is proved equal to
  that function.
- `cache_generator.dfy`: module `CacheGenerator`. The shared two-slot list
  is the class `Cache`. The generator object is the class
  `CachingGenerator`, whose `Next` is one `next(gen)` call, with `None`
  standing for `StopIteration`.

Python semantics kept as they are:

- Names are concatenated as written. Nothing is escaped, in the keys or in
  the text form.
- With duplicate names, the later descriptor overwrites the earlier keys,
  but the name still appears twice in `portal`.
- The flag is set by the pull AFTER the last value. After exactly N pulls on
  an N-value iterator, `cache[1]` is still untouched. A finished generator
  changes nothing on later pulls.

## Model

| member | source | states |
|---|---|---|
| PortalParams.PortalParams | fmrest/utils.py:30-72 | definition of the returned dict, with `names_as_string` defaulting to false as on line 30; characterised by `PortalIsNameList`, `PortalIsNameText`, `LastDescriptorWins` and `ParamKeys` |
| PortalParams.PortalNames | fmrest/utils.py:61 | definition of `portal_selector`; characterised by `PortalIsNameList` |
| PortalParams.Selector | fmrest/utils.py:62-66 | definition of the `portal` value in both forms; characterised by `PortalIsNameList` and `PortalIsNameText` |
| PortalParams.OffsetOf | fmrest/utils.py:69 | definition of `portal.get('offset', 1)`; characterised by `LastDescriptorWins` |
| PortalParams.RangeOf | fmrest/utils.py:70 | definition of `portal.get('range', 50)`; characterised by `LastDescriptorWins` |
| PortalParams.OffsetKey | fmrest/utils.py:69 | definition of the key `'offset.' + name`; characterised by `KeysDistinct` |
| PortalParams.RangeKey | fmrest/utils.py:70 | definition of the key `'range.' + name`; characterised by `KeysDistinct` |
| PortalParams.WriteLimits | fmrest/utils.py:69-70 | definition of one loop iteration's two writes; characterised by `WriteAllKeys` and `WriteAllLastWins` |
| PortalParams.WriteAll | fmrest/utils.py:68-70 | definition of the loop as a fold over the descriptors; characterised by `WriteAllKeepsPortal`, `WriteAllKeys` and `WriteAllLastWins` |
| PortalSelector.Quoted | fmrest/utils.py:63 | definition of the lambda `'"' + x + '"'`, nothing escaped; characterised by `SelectorTextRoundTrip` and `UnescapedNamesCollide` |
| PortalSelector.QuoteAll | fmrest/utils.py:63 | definition of the `map` of that lambda over the names; characterised by `ParseJoinedNames` |
| PortalSelector.Join | fmrest/utils.py:63 | definition of `', '.join(...)`; characterised by `ParseJoinedNames` and `TwoNameSelectorText` |
| PortalSelector.SelectorText | fmrest/utils.py:63 | definition of `portal_param`; characterised by `SelectorTextRoundTrip`, `EmptySelectorText` and `TwoNameSelectorText` |
| CacheGenerator.CachingGenerator.Valid | fmrest/utils.py:87-91 | definition of the invariant: `cache[0]` is its initial contents followed by the values yielded, and `cache[1]` is untouched until exhaustion and set after it; kept by `Next`, `Drain` and `Take` |
| PortalParams.BuildPortalParams | fmrest/utils.py:61-72 | the loop over the descriptors, started from the `portal` entry, returns exactly the dict specified by `PortalParams` |
| PortalParams.PortalIsNameList | fmrest/utils.py:30-66 | with `names_as_string=False`, which is the default, `portal` is present and is the list of names, one per descriptor, in input order, duplicates included |
| PortalParams.PortalIsNameText | fmrest/utils.py:61-64 | with `names_as_string=True`, `portal` is `"[" + ", ".join('"' + n + '"' for n in names) + "]"` |
| PortalParams.LastDescriptorWins | fmrest/utils.py:68-70 | for a descriptor that no later descriptor shares a name with, `offset.<name>` is its offset or 1, and `range.<name>` is its range or 50 |
| PortalParams.UniqueNamesOwnLimits | fmrest/utils.py:68-70 | when names are unique, every descriptor's own offset and range (or their defaults) are stored under its two keys |
| PortalParams.ParamKeys | fmrest/utils.py:61-72 | the key set is exactly `portal` plus `offset.<n>` and `range.<n>` for each name `n` |
| PortalParams.NoPortals | fmrest/utils.py:61-72 | an empty descriptor list gives only `portal`, holding `[]` or the text `[]` |
| PortalParams.TwoPortalsExample | fmrest/utils.py:61-72 | `A` (offset 2, range 10) then `B` gives `portal` = `["A", "B"]` (list or text), offsets 2 and 1, ranges 10 and 50 |
| PortalParams.KeysDistinct | fmrest/utils.py:69-70 | `offset.` and `range.` keys never equal `portal` or each other, and each prefix keeps names apart |
| PortalParams.WriteAllKeepsPortal | fmrest/utils.py:68-70 | the loop never adds, removes or changes the `portal` entry |
| PortalParams.WriteAllKeys | fmrest/utils.py:68-70 | the loop adds exactly an offset key and a range key per descriptor name to the keys it started with |
| PortalParams.WriteAllLastWins | fmrest/utils.py:68-70 | after the loop, the last descriptor with a given name decides both of that name's values |
| PortalSelector.SelectorTextRoundTrip | fmrest/utils.py:63 | when no name contains a double quote, the names can be read back from the text, order and duplicates included |
| PortalSelector.EmptySelectorText | fmrest/utils.py:63 | no names give the text `[]` |
| PortalSelector.TwoNameSelectorText | fmrest/utils.py:63 | names `A`, `B` give exactly `["A", "B"]` (comma and one space between them) |
| PortalSelector.UnescapedNamesCollide | fmrest/utils.py:63 | with no escaping, the one name `A", "B` renders the same text as the two names `A` and `B` |
| PortalSelector.ParseJoinedNames | fmrest/utils.py:63 | the joined quoted names read back as the names when none contains a double quote |
| CacheGenerator.Cache.constructor | fmrest/utils.py:82-84 | the two-slot cache holds the given values and completion flag |
| CacheGenerator.CachingGenerator.constructor | fmrest/utils.py:74 | creating the generator pulls nothing and leaves the cache as it is; the invariant holds |
| CacheGenerator.CachingGenerator.Next | fmrest/utils.py:87-91 | each pull appends the next value to `cache[0]` and returns it, leaving `cache[1]` alone; the pull that finds the iterator exhausted sets `cache[1]` and appends nothing; later pulls change nothing; `cache[0]` stays its initial contents followed by the values yielded |
| CacheGenerator.CachingGenerator.Drain | fmrest/utils.py:87-91 | pulling to the end yields the remaining values in order; `cache[0]` then is its initial contents followed by all values, and `cache[1]` is set |
| CacheGenerator.CachingGenerator.Take | fmrest/utils.py:87-89 | `k` pulls yield the next `k` values (or all that remain), each also appended to `cache[0]`; the flag is set only if a pull found the iterator exhausted |
| CacheGenerator.DrainTwice | fmrest/utils.py:74-91 | on a fresh `[[], False]` cache, a first drain yields the source and leaves `cache[0]` equal to it with the flag set; a second drain yields nothing |
| CacheGenerator.PullPrefix | fmrest/utils.py:87-91 | on a fresh cache, `k` pulls (up to the number of values) leave exactly the first `k` values in `cache[0]` and the flag false |

## Left out

- `request` (fmrest/utils.py:23-28) is not modelled. It wraps a network call from the `requests` library with a timeout and re-raises any failure as `RequestException`. The error types and `TIMEOUT` come from `fmrest/exceptions.py` and `fmrest/const.py`, which are not part of this model.
- The commented-out logging set-up (fmrest/utils.py:6-21) does nothing and is not modelled.
- Dict insertion order is not modelled. The result is a `map`, so the order in which the parameters would be sent is not captured.
- Descriptor values are not dynamically typed here. `offset` and `range` are integers when present. A missing `name` (a `KeyError` in Python) cannot be written, because `name` is a required field.
- The wrapped iterator is a finite sequence. An infinite iterator, or one that raises part-way, is not modelled. In the latter case the exception would pass through and the flag would never be set.
- Nothing else is modelled as pulling from the same iterator, or as changing `cache` between pulls. `Valid` assumes the generator is the only writer, and pulls are sequential. The source provides no synchronisation.
