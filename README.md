# Yandex.Cloud resource aggregators, in Dafny

This project models the core of a set of Terraform data sources for
Yandex.Cloud that summarise what a folder consumes. It also models a few
provider-level helpers.

- **Compute aggregator** (`ComputeCloud`). It pages through a folder's disks
  and running instances, 1000 per request, following the page token.
  It adds up `network-hdd` and `network-ssd` disk sizes. It reports, for each
  of the platform ids `standard-v1`, `standard-v2` and `standard-v3`, the
  fractional cores (cores × core fraction / 100) and the memory of the running
  instances, labelled with the Intel platform name.
- **MySQL aggregator** (`MdbMysql`). It resolves every resource preset to a
  core fraction and a CPU platform, using a fixed id table and three
  `^\w+<digit>` patterns. It expands every cluster's hosts into resource
  items, looking the host's preset up by id (an unknown id gives the zero
  preset). It reports per-platform cores and memory, and the SSD and HDD
  totals.
- **Shared types** (`Structures`): the preset and item records and the
  ordered list of CPU platforms.
- **Lockbox payload** (`LockboxSecret`). It folds a secret's entries into a
  key-to-text map and picks out the text of the requested key.
- **Provider helpers** (`Provider`):
  - the virtual host id wrapper, which splits `<router>/<name>` and stores
    both before running the wrapped callback;
  - the resource decorator that wraps read, update and delete;
  - the folder and Terraform version defaulting of provider configuration;
  - the service account key validator.

Terraform's `schema.ResourceData` is modelled in `ResourceModel`:

- `ResourceData` is a class whose `id` and `values` fields the read
  functions update in place.
- `SetField` is the pure description of one `d.Set` call.
- A `d.Set` that the SDK refuses is modelled by the set `rejects` of keys
  whose `Set` fails. Every read function stops at the first refused key, as
  the source does.

Remote calls, and helpers that are not part of this model, are parameters:

- a remote list call is the sequence of answers it gives, one per request;
- `getFolderID` is an input `Result`;
- `ListHosts` is a function from cluster id to `Result`;
- `os.Stat` and JSON decoding are predicates;
- `initAndValidate` is a function returning an optional error;
- `handleNotFoundError` is a function from the failure and the resource
  name to the error it returns and whether it clears the id.

Behaviour of the code worth knowing:

- **Core fractions.** Only the six `b1.*`/`b2.*` nano, micro and medium
  presets are fractional. Every other id gets 100, so `s2.medium` is
  Cascade Lake at 100 (`MdbMysql.ExampleS2Medium`).
- **Errors from a later page.** A failure on a page after the first is
  dropped whenever some page between them returned items that were kept.
  The loaded items are then returned with no error
  (`ComputeCloud.ContinuationErrorDropped`). The error survives only when
  every page between the first and the failure returned no kept items
  (`ComputeCloud.ContinuationErrorKept`).
- **Page size for instances.** The instance pager decides whether to
  continue by comparing the page size with the disk limit. Both limits are
  1000, so this makes no observable difference; the model compares with
  `DisksLimit` in both pagers, as the code does.

## Model

| member | source | states |
|---|---|---|
| Structures.CpuPlatformsShape | yandex/structures_webbankir.go:3-19 | there are three distinct, non-empty platform names, and the zero preset's empty platform is none of them |
| ResourceModel.SetField | yandex/data_source_yandex_resources_compute_cloud.go:92-97 | a `d.Set` of a refused key returns that key's error and changes nothing; otherwise exactly that key takes the value |
| ResourceModel.ResourceData.Set | yandex/data_source_yandex_resources_compute_cloud.go:92-97 | the object's new id, values and error are those that `SetField` gives for its old state |
| ResourceModel.ResourceData.SetId | yandex/data_source_yandex_resources_compute_cloud.go:68 | the id becomes the argument and the values are unchanged |
| ComputeCloud.FirstStop | yandex/data_source_yandex_resources_compute_cloud.go:163-174 | the index of the first answer that ends paging is in range, that answer is not a full page, and every earlier answer is a full page (`BeforeStopFull`) |
| ComputeCloud.BeforeStopFull | yandex/data_source_yandex_resources_compute_cloud.go:163 | every answer before the stopping one is a listed page of exactly 1000 items |
| ComputeCloud.Kept | yandex/data_source_yandex_resources_compute_cloud.go:157-161 | the filtered page holds only items that satisfy the filter, and keeps each one that does |
| ComputeCloud.Gathered | yandex/data_source_yandex_resources_compute_cloud.go:157-161 | every gathered item satisfies the filter |
| ComputeCloud.GatheredAppend | yandex/data_source_yandex_resources_compute_cloud.go:166-167 | gathering over two runs of answers is the concatenation of the two gatherings |
| ComputeCloud.Load | yandex/data_source_yandex_resources_compute_cloud.go:145-175 | it issues one request per answer up to the first non-full one, each carrying the previous page's token; it returns the kept items of those pages in order; its error is the failure's error only when the failure is on the first page, or every page in between kept nothing |
| ComputeCloud.LoadDisks | yandex/data_source_yandex_resources_compute_cloud.go:177-205 | the disk pager chains its requests with page size 1000 and returns every disk of every page it read |
| ComputeCloud.LoadInstances | yandex/data_source_yandex_resources_compute_cloud.go:145-175 | the instance pager chains its requests with page size 1000 and returns only running instances, all those on the pages it read |
| ComputeCloud.PagesLength | yandex/data_source_yandex_resources_compute_cloud.go:189-191 | the number of disks gathered is the sum of the page sizes |
| ComputeCloud.PagerComplete | yandex/data_source_yandex_resources_compute_cloud.go:177-205 | when every page but the last is full and the last is a short page, the pager reads all pages, returns all disks (1000 per full page plus the last page's) and no error, with one request per page |
| ComputeCloud.ContinuationErrorDropped | yandex/data_source_yandex_resources_compute_cloud.go:193-201 | two full pages followed by a failure yield both pages' disks and no error |
| ComputeCloud.ContinuationErrorKept | yandex/data_source_yandex_resources_compute_cloud.go:193-201 | one full page followed by a failure yields that page's disks together with the failure's error |
| ComputeCloud.SumStorage | yandex/data_source_yandex_resources_compute_cloud.go:78-87 | the loop's totals are the total sizes of the `network-hdd` and the `network-ssd` disks |
| ComputeCloud.StorageAdditive | yandex/data_source_yandex_resources_compute_cloud.go:78-87 | both storage totals add up over concatenated disk lists |
| ComputeCloud.DiskClassified | yandex/data_source_yandex_resources_compute_cloud.go:79-86 | one more disk adds its size to exactly the total of its type, and to neither total when it is of another type |
| ComputeCloud.LabelsAreCpuPlatforms | yandex/data_source_yandex_resources_compute_cloud.go:125-134 | the three platform ids are labelled with the three shared platform names, in order |
| ComputeCloud.CpuBuckets | yandex/data_source_yandex_resources_compute_cloud.go:105-137 | the report has three entries, one per platform id in order, each with that platform's label, the sum of cores × fraction / 100 and the sum of memory of the instances on that platform id |
| ComputeCloud.MemoryPartition | yandex/data_source_yandex_resources_compute_cloud.go:105-111 | the three buckets and the instances on other platform ids together account for all the memory |
| ComputeCloud.CoresPartition | yandex/data_source_yandex_resources_compute_cloud.go:105-119 | the three buckets and the instances on other platform ids together account for all the fractional cores |
| ComputeCloud.BucketStep | yandex/data_source_yandex_resources_compute_cloud.go:107-119 | one more instance adds its share and memory to its own platform's bucket and leaves other buckets unchanged |
| ComputeCloud.OffStep | yandex/data_source_yandex_resources_compute_cloud.go:105-111 | one more instance counts towards the unreported remainder exactly when its platform id is none of the three |
| ComputeCloud.OtherPlatformIgnored | yandex/data_source_yandex_resources_compute_cloud.go:108 | an instance on another platform id does not enter a bucket |
| ComputeCloud.StoppedInstanceExcluded | yandex/data_source_yandex_resources_compute_cloud.go:157-161 | a stopped instance is not loaded and does not count towards the Broadwell cores |
| ComputeCloud.ContentRead | yandex/data_source_yandex_resources_compute_cloud.go:55-143 | a failed folder lookup changes nothing; otherwise the id is the folder; a disk error stops the read; then `network_ssd`, `network_hdd`, an instance error, `folder_id` and `cpu` follow in that order, each step stopping at the first error, and the stored values are the pagers' totals and report |
| MdbMysql.CoreFractionFor | yandex/data_source_yandex_resources_mdb_mysql.go:92-101 | the fraction is 5, 20, 50 or 100, and it is below 100 exactly for the six burstable preset ids |
| MdbMysql.LeadingWordRunIsRun | yandex/data_source_yandex_resources_mdb_mysql.go:103-109 | every character of the run is a word character, and the one after it, if any, is not |
| MdbMysql.WordPrefixDigitIsPattern | yandex/data_source_yandex_resources_mdb_mysql.go:103-109 | the run-based test holds exactly when the id matches `^\w+d`: one or more word characters followed by the digit |
| MdbMysql.PlatformRule | yandex/data_source_yandex_resources_mdb_mysql.go:103-109 | Broadwell exactly when `^\w+1` matches; Cascade Lake exactly when `^\w+2` matches and the first does not; Ice Lake likewise for `3`; empty exactly when none matches |
| MdbMysql.ExampleB1Nano | yandex/data_source_yandex_resources_mdb_mysql.go:92-109 | `b1.nano` resolves to Broadwell at 5% |
| MdbMysql.ExampleB2Micro | yandex/data_source_yandex_resources_mdb_mysql.go:92-109 | `b2.micro` resolves to Cascade Lake at 20% |
| MdbMysql.ExampleS2Medium | yandex/data_source_yandex_resources_mdb_mysql.go:92-109 | `s2.medium` resolves to Cascade Lake at 100% |
| MdbMysql.ExampleNoPlatform | yandex/data_source_yandex_resources_mdb_mysql.go:92-109 | `m.large` resolves to no platform at 100% |
| MdbMysql.NoGenerationDigitNoPlatform | yandex/data_source_yandex_resources_mdb_mysql.go:103-109 | any id with no `1`, `2` or `3` among the word characters after its first gets no platform |
| MdbMysql.BuildPresetTable | yandex/data_source_yandex_resources_mdb_mysql.go:84-112 | the loop's table is the reference fold of the presets |
| MdbMysql.PresetTableKeys | yandex/data_source_yandex_resources_mdb_mysql.go:111 | an id is in the table exactly when some preset has that id |
| MdbMysql.PresetTableLastWins | yandex/data_source_yandex_resources_mdb_mysql.go:111 | an id maps to the resolution of the last preset with that id |
| MdbMysql.KnownPresetItem | yandex/data_source_yandex_resources_mdb_mysql.go:125-135 | a host whose preset is listed gets that preset's cores, memory, platform and fraction |
| MdbMysql.UnknownPresetItem | yandex/data_source_yandex_resources_mdb_mysql.go:126 | a host whose preset is not listed gets zero cores, memory and fraction and no platform |
| MdbMysql.HostDisk | yandex/data_source_yandex_resources_mdb_mysql.go:137-144 | a host's disk size goes to the HDD or the SSD field according to its type, and to neither for another type |
| MdbMysql.ExpandHosts | yandex/data_source_yandex_resources_mdb_mysql.go:114-148 | the loop's outcome is the reference expansion: one item per host, cluster by cluster, or the first cluster error |
| MdbMysql.ExpansionStops | yandex/data_source_yandex_resources_mdb_mysql.go:121-123 | a cluster whose host list fails, with none before it failing, makes the whole expansion fail with its error |
| MdbMysql.ExpansionOutcome | yandex/data_source_yandex_resources_mdb_mysql.go:114-148 | the expansion succeeds exactly when every cluster's host list does; on success it has one item per host |
| MdbMysql.CpuBuckets | yandex/data_source_yandex_resources_mdb_mysql.go:154-174 | the report has one entry per shared platform name in order, with the sum of fraction × cores / 100 and the memory of the items on that platform |
| MdbMysql.StorageTotals | yandex/data_source_yandex_resources_mdb_mysql.go:176-182 | the totals are the sums of every item's SSD and HDD sizes |
| MdbMysql.MemoryPartition | yandex/data_source_yandex_resources_mdb_mysql.go:154-168 | the three buckets and the items with no platform account for all the memory |
| MdbMysql.CoresPartition | yandex/data_source_yandex_resources_mdb_mysql.go:154-168 | the three buckets and the items with no platform account for all the fractional cores |
| MdbMysql.BucketStep | yandex/data_source_yandex_resources_mdb_mysql.go:156-168 | one more item adds to its own platform's bucket and to no other |
| MdbMysql.UnplacedStep | yandex/data_source_yandex_resources_mdb_mysql.go:156-160 | one more item counts towards the unreported remainder exactly when its platform is none of the three |
| MdbMysql.StorageFromDisks | yandex/data_source_yandex_resources_mdb_mysql.go:137-144 | the SSD and HDD totals over a cluster's items are the disk sizes of its hosts of each type |
| MdbMysql.ContentRead | yandex/data_source_yandex_resources_mdb_mysql.go:52-195 | a failed folder, cluster, preset or host lookup changes nothing and is returned; otherwise the id is the folder, and `network_ssd`, `network_hdd`, `folder_id` and `cpu` are stored in order from the expansion's totals and report, stopping at the first refused key |
| LockboxSecret.ValuesOfKeys | yandex/data_source_yandex_lockbox_secret.go:56-59 | a key is in the `values` map exactly when some entry has that key |
| LockboxSecret.ValuesOfLastWins | yandex/data_source_yandex_lockbox_secret.go:58-59 | a key maps to the text of the last entry with that key |
| LockboxSecret.SelectedIsMapEntry | yandex/data_source_yandex_lockbox_secret.go:58-66 | the text stored in `value` is the text that the `values` map holds for the key, and there is one exactly when the key is in the map |
| LockboxSecret.SelectedAfterMatch | yandex/data_source_yandex_lockbox_secret.go:60 | once an entry matches the key, the payload's selection exists |
| LockboxSecret.PayloadRead | yandex/data_source_yandex_lockbox_secret.go:40-78 | a failed payload read returns what the not-found handler returns for the secret's name, clears the id if the handler does, and stores nothing; otherwise the id is the secret id and `value` (only if the key was given and matched), `secret_id`, `key` and `values` are stored in order, stopping at the first refused key |
| Provider.SlashAt | yandex/provider.go:299 | the first separator index is in range and, when inside the id, points at a '/' |
| Provider.SlashAtFirst | yandex/provider.go:299 | no '/' comes before the first separator |
| Provider.Split | yandex/provider.go:299 | splitting on '/' gives at least one piece |
| Provider.SplitPiecesSlashFree | yandex/provider.go:299 | no piece holds a '/' |
| Provider.JoinSplit | yandex/provider.go:299 | joining the pieces with '/' gives back the id |
| Provider.SplitJoin | yandex/provider.go:299 | splitting a join of slash-free pieces gives back the pieces |
| Provider.SplitsInTwo | yandex/provider.go:299-300 | an id splits into at least two pieces exactly when it holds a '/' |
| Provider.ParseVirtualHostId | yandex/provider.go:299-302 | an id without '/' is refused with the wrong-id error; otherwise the router and the name are slash-free and, joined by '/', form the id up to its second '/' or its end |
| Provider.ParsedPrefix | yandex/provider.go:299-306 | the first two pieces joined by '/' are a prefix of the id that ends at a '/' or at the end |
| Provider.RunWrappedCases | yandex/provider.go:297-311 | a wrong id returns its error with the state unchanged; a refused `http_router_id` or `name` returns that error and skips the callback; otherwise the callback runs on the state with both stored |
| Provider.WrongIdSkipsCallback | yandex/provider.go:300-302 | for an id without '/' the outcome does not depend on the callback |
| Provider.WithAlbVirtualHostIdRuns | yandex/provider.go:290-295 | create runs unchanged, and read, update and delete run behind the id parse |
| Provider.Prepare | yandex/provider.go:352-386 | the folder id is emptied exactly when asked and every other setting is copied; the Terraform version is never empty, a given version is kept and a missing one becomes `0.11+compatible` |
| Provider.ProviderConfigure | yandex/provider.go:352-394 | validation is called with the settings, their folder emptied exactly when asked, and a non-empty version: the given one, or `0.11+compatible` when none is given; configuration fails exactly when validation does, with its error, and otherwise returns the validated config |
| Provider.ValidateSaKey | yandex/provider.go:396-414 | there are never warnings; there is one error, naming the value, exactly when the value is given and non-empty, is not an existing file and is not valid JSON |
| Provider.EmptySaKeyAccepted | yandex/provider.go:397-399 | an absent or empty key is accepted whatever the file system and decoder say |

## Left out

- Remote calls, the SDK client, contexts and retries are not modelled. Each
  list call is the sequence of answers it returns.
- ComputeCloud.Load: when every answer is a full page the source recurses
  forever. The model requires a terminating answer (`Ends`) and does not
  describe that case.
- int64 wrap-around of the storage and memory totals is not modelled. Sums
  are unbounded integers.
- Core totals are `float64` in the source and exact reals here. Rounding is
  not modelled.
- The core fraction is an `int8` newtype. Preset cores and memory are
  unbounded integers.
- Only the first page (up to 1000) of clusters, presets and hosts is read,
  as the source does. The model takes that one page as given.
- `getFolderID`, `handleNotFoundError`, `os.Stat`, JSON decoding and
  `Config.initAndValidate` are not part of this model. They appear as
  parameters; a failed folder lookup is wrapped as `FolderLookup`.
- The secret name given to the not-found handler quotes the secret id with
  plain quotes. Go's `%q` escaping is not modelled.
- The lockbox key is the configured key, or the empty string when it is
  absent, as `GetOkExists` yields.
- `fmt.Errorf` message texts are modelled as error constructors carrying
  their data, not as strings.
- Logging, the Terraform schemas, the user agent, `StopContext` and the
  provider's other resources are not modelled.
- A nil callback passed to the virtual host wrapper is not modelled. Every
  callback here is a total function.
