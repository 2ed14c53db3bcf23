# Study listing: status buckets, selection and filter state

This project models the study listing page of a study-group web front end
(`pages/study/index.tsx`). It covers three parts:

- **Partition.** At build time the page fetches every study record. It builds a
  dictionary of four empty lists keyed `ready`, `open`, `inprogress` and
  `close`. Then it pushes each record, in fetch order, onto the list named by
  its lower-cased status text. This is `Studies.Partition`, a method with a
  loop, proved equal to the declarative `Studies.Partitioned`.
- **Selection.** The page shows the list picked by the current filter. `"all"`
  gives the four lists in the order ready, open, inprogress, close. A bucket
  key gives that bucket. Any other value gives the empty list. This is
  `StudyFilter.Select`.
- **Filter state.** The URL `status` query seeds the filter, falling back to
  `"open"` when the query is absent or empty. A later truthy query replaces the
  filter, and so does a tab choice. This is the class
  `StudyFilter.FilterState`, plus the pure transition function
  `StudyFilter.Step` and the lemmas about its runs.

A study record is modelled as an opaque id plus the raw status text.
`toLowerCase` is modelled on ASCII letters. `Studies.StatusNameKeys` shows that
the backend's four status names `READY`, `OPEN`, `INPROGRESS` and `CLOSE`
lower-case to the four bucket keys. The query value is modelled as the
JavaScript value it can be at run time: undefined, a string, or an array of
strings for a repeated parameter. The filter test uses JavaScript truthiness
(`||`), so `""` falls back to `"open"`, and an array is kept as the filter and
then selects nothing.

Files: `studies.dfy` (module `Studies`) and `filter.dfy` (module `StudyFilter`).

## Model

| member | source | states |
|---|---|---|
| `Studies.LowerChar` | pages/study/index.tsx:158 | An upper-case ASCII letter maps to its lower-case letter. Every other character is unchanged. No result is an upper-case letter. |
| `Studies.ToLower` | pages/study/index.tsx:158 | Lower-casing keeps the length and lower-cases each character in place. |
| `Studies.ToLowerIdempotent` | pages/study/index.tsx:158 | Lower-casing an already lower-cased string changes nothing. |
| `Studies.StatusNameKeys` | pages/study/index.tsx:158 | Each backend status name lower-cases to its bucket key. That key is one of the four. Distinct states get distinct keys. |
| `Studies.Lookup` | pages/study/index.tsx:150-158 | Indexing the dictionary yields a list exactly for the four keys, and it is the list of that name. Any other key yields no own list: undefined, or an inherited `Object.prototype` member such as `constructor` or `__proto__`, which has no `push`. |
| `Studies.Push` | pages/study/index.tsx:158 | `push` appends the study to the list under the key. Every other key's list is unchanged. |
| `Studies.Concat` | pages/study/index.tsx:51-56 | The all-buckets list is as long as the four buckets together. |
| `Studies.OnlyMembership` | pages/study/index.tsx:157-159 | A study is in bucket `k` if and only if it is in the input and its lower-cased status is `k`. |
| `Studies.OnlyPositions` | pages/study/index.tsx:157-159 | Bucket `k` is the input taken at exactly the indices whose lower-cased status is `k`, in increasing index order. So relative input order is kept. |
| `Studies.PartitionedSnoc` | pages/study/index.tsx:157-159 | Pushing one more study onto the dictionary of a list gives the dictionary of the extended list. |
| `Studies.PartitionCount` | pages/study/index.tsx:150-159 | When every status is known, the four bucket lengths sum to the input length. |
| `Studies.PartitionPermutation` | pages/study/index.tsx:150-159 | When every status is known, the concatenated buckets are a permutation of the input. Nothing is dropped or duplicated. |
| `Studies.BucketsDisjoint` | pages/study/index.tsx:150-159 | No study is in two different buckets. |
| `Studies.Partition` | pages/study/index.tsx:147-159 | The loop produces exactly the declarative partition of its input, and that result is a permutation of the input. It requires every status to lower-case to a known key. |
| `StudyFilter.Or` | pages/study/index.tsx:39 | `a \|\| b` is `a` when `a` is truthy and `b` otherwise. |
| `StudyFilter.Select` | pages/study/index.tsx:48-66 | `"all"` gives the concatenation ready, open, inprogress, close. A bucket key gives that bucket unchanged. Every other value, including non-strings, gives the empty list. |
| `StudyFilter.SelectShowsOnlyBuckets` | pages/study/index.tsx:48-66 | For every filter, the shown list is a sub-multiset of the four buckets. Nothing left over from an earlier selection appears. |
| `StudyFilter.SelectPartitionedBucket` | pages/study/index.tsx:57-64 | For a bucket key, the shown list equals the input's studies of that status in input order. It holds exactly those studies. |
| `StudyFilter.SelectAllPartitioned` | pages/study/index.tsx:50-56 | For `"all"`, the shown list is a permutation of the whole fetched input, with the same length. |
| `StudyFilter.InitialFilter` | pages/study/index.tsx:39 | The initial filter is the query value when that value is truthy, and `"open"` otherwise. |
| `StudyFilter.Step` | pages/study/index.tsx:42-46 | A truthy query change or a tab choice sets the filter to its value. A falsy query change leaves the filter as it was. |
| `StudyFilter.MountKeepsInitial` | pages/study/index.tsx:39-46 | When the query effect runs at mount with the query the state was seeded from, the initial filter does not change. |
| `StudyFilter.RunWithoutDecisive` | pages/study/index.tsx:42-46 | A run of falsy query changes leaves the filter as it started. |
| `StudyFilter.RunLatestDecides` | pages/study/index.tsx:42-46 | After any run of events, the filter is the value of the most recent truthy query change or tab choice. |
| `StudyFilter.QueryOverridesTab` | pages/study/index.tsx:42-46 | A truthy query change after a tab choice overrides that choice. |
| `StudyFilter.FilterState.constructor` | pages/study/index.tsx:39 | The filter is seeded with the truthy query value or `"open"`, so it is never undefined. |
| `StudyFilter.FilterState.OnQueryChange` | pages/study/index.tsx:42-46 | A truthy query replaces the filter. A falsy one leaves it unchanged. |
| `StudyFilter.FilterState.OnTabChange` | pages/study/index.tsx:68-70 | The chosen tab's key becomes the filter. |

## Left out

- Rendering is not modelled: JSX, the `router.isFallback` skeleton, tabs chrome, meta head, banner and styles (pages/study/index.tsx:72-143). This is UI only.
- The fetch `API_GetStudyPageList` and the `revalidate` setting (pages/study/index.tsx:148, 165) are not modelled. The fetched list is the input sequence of `Studies.Partition`.
- React scheduling is not modelled: effect ordering, dependency tracking and batched state updates. `OnQueryChange` stands for the first effect firing on a changed `status`. The transient empty list at line 49 is not kept; `Select` gives only the final list.
- A status that does not lower-case to one of the four keys makes the source throw at line 158. The dictionary has no own list under that key: indexing gives undefined, or for `constructor` and `__proto__` an inherited `Object.prototype` member, and neither has a callable `push`. This is the precondition `KnownStatuses` of `Studies.Partition`; no recovery is invented.
- Records keep only an id and the status text. The other fields (name, dates, capacity, lecture) do not affect this logic.
- Studies.LowerChar, Studies.ToLower: lower-case ASCII letters only, not full Unicode case mapping, so non-ASCII capitals such as `É` or `Σ` stay unchanged. This does not change which statuses reach a bucket. Only two non-ASCII characters have a full lower-case mapping that contains an ASCII character. KELVIN SIGN (U+212A) becomes `k`, and no key contains `k`. U+0130 becomes `i` followed by a combining dot, which no key contains.
- Studies.Partition: the dictionary of four arrays that the source fills in place is modelled as a value that the loop reassigns. Aliasing of those arrays is not modelled.
- The application submit flow in pages/study/[page_id]/recruit.tsx and the navigation drawer in components/Common/Header.tsx are not part of this model. They are a network call with notifications and UI chrome.
