# Verification of Biebie Kube's core

This project models the parts of Biebie Kube whose mistakes would be silent, and proves what they are relied
on for. `dafny verify dfyconfig.toml` checks all of it. Each module follows one part of the program; where the
program changes things step by step, a class or a method with loops does the same and is proved equal to a
function, and the results are proved about that function, over every input or every run.

**Source against live** (`internal/gitops`). `Json`, `TreeDiff` and `Pruning` hold trees, paths and the walk;
`Meaning` says what a tree means once keyed lists are read by name and proves that the walk finds nothing exactly
when two trees mean the same. `WalkLaws` characterises every row of the walk and derives that rows are apart, that
the sides may be swapped, and that secret values do not show; `Reordering`, that keyed lists may be permuted at any
depth; `RowLaws`, what each row says of the two sides; `PathText`, what the text of a path tells and what it does not.
`Normalise` is what is taken away before comparing, with the default rules as data; `NothingHidden` proves that nothing
else is, and `ExactlyExcused` that all of it is, so that a value is missing if and only if it is excused; `DefaultLaws`
says, place by place, which values those are. `EqualIsSound` says what a comparison that finds nothing means for the two
objects, and `EqualVerdict` what the verdict Equal means when rows a controller accounts for are left. `TreeWalk` and
`NormaliseCode` are the code.

**The editor's counter** (`internal/manifest/compare.go`). `EditScript` has the longest common subsequence, the
greedy script and the positional one; `EditCompare` is the table, the two counting loops and the comparison.

**The watch hub** (`internal/kube/informer.go`). `Watches` is the budget of watches, `ChangeFeed` the coalescing of
events with a record of every event ever accepted, `WatchErrors` the decision that credentials are rejected.

**Argo CD ownership** (`internal/argocd`). `Claims` ranks Applications, `Discovery` is the paged search with its
cache over runs with a clock, `Gate` what opens a write, `SharedCache` the same for questions asked at once, and
`Ownership` what resolvers and gates answer in terms of what objects and Applications hold.

**Cluster sessions** (`internal/cluster/manager.go`). `Sessions` is the protocol: any number of goroutines, each
standing between two critical sections, in any interleaving; and the manager, each of whose methods is a step of it.
`Catalogues` says whose catalogue a session shows, `Retries` which failures are tried again.

**Smaller machines.** `LogPump` (reader, bounded channel, consumer), `Customers`, `CustomerGroups`, `Archive` and
`Repository` (the cluster store and its sections), `AutoImport` (once-only import), `Manifests` (splitting and printing). `Order`
and `Text` hold sorting, filtering, splitting and joining.

Where the code and its comments differ, the code is modelled:

- The comment on the archive's key says no customer can carry it; nothing prevents it. The archive holds exactly what
  was put there if and only if no cluster that carries the key is outside it (`Archive.ArchiveHoldsTheArchived`).
- The comment on marking contexts as seen calls a failed mark harmless. A cluster that has been deleted is made again
  by the next Sync exactly when the mark was not saved (`AutoImport.UnsavedMarkRecreates`).
- A scan error may overtake log lines, and may itself be lost; when each happens is exact
  (`LogPump.WhatAnErrorCosts`).
- The comment on empty metadata maps speaks of maps that normalisation emptied. One that is written empty goes as well
  (`ExactlyExcused.WrittenEmptyMapsGo`); what else goes is exact (`ExactlyExcused.VanishesExactly`). An empty object in
  the source stops being empty exactly where such a map is opened inside it (`ExactlyExcused.SourceGoesExactly`).
- A refresh stores what one client read in whatever session there is afterwards, under that session's epoch; it is the
  session's own reading exactly when the session still has that client (`Catalogues.StoredIsOwnExactly`).
- System-managed rows are recognised by the text of their path, so a value that only reads like a tracking label is one
  of them (`EqualVerdict.LookAlikesAreManaged`).
- An edit of a cluster does not look for another cluster of the same context
  (`Customers.ContextsStayUnique` says exactly when they stay apart).
- Reading a line drops a carriage return at its end, so splitting undoes printing exactly when no line ends in one
  (`Manifests.SplitUndoesPrinting`).
- An object's joined key is its own only where no field holds a slash, which nothing checks
  (`Manifests.KeyIsUniqueExactly`), and a tracking annotation whose names hold a colon is not read
  (`Claims.ColonsAreIgnored`).

## Model

| member | source | states |
|---|---|---|
| Meaning.WalkFindsNothing | internal/gitops/diff.go:74-145 | The walk reports nothing if and only if the two trees mean the same: equal, up to the order of lists whose key names every element on both sides. Sound and complete, at every path and for every rule table. |
| Meaning.SameKeys | internal/gitops/diff.go:197-225 | Two lists that say the same elements under a key are paired by that same key. |
| WalkLaws.WalkReports | internal/gitops/diff.go:74-165 | A row is in the walk exactly when it is the row its path leads to: the only description of the rows the other laws use. |
| RowLaws.RowSaysWhatIsThere | internal/gitops/diff.go:74-165 | Every row that is not kept back carries what the source holds along its path as the source's value and what the live object holds there as the live one, and its kind says which side holds nothing there. |
| RowLaws.ComparedRowSays | internal/gitops/diff.go:62-181 | The same of the rows a comparison lists; values are kept back exactly in a Secret, at data and stringData and at what is directly inside them by name. |
| RowLaws.ComparedInOrder | internal/gitops/diff.go:62-67 | The rows are listed by the text of their paths, ascending. |
| WalkLaws.RowsApart | internal/gitops/diff.go:98-145 | No two reported paths are equal and none is a prefix of another. |
| PathText.RenderTellsApart | internal/gitops/diff.go:98-145 | Paths whose fields are named, hold no dot and do not end in a bracket, and whose element names hold no opening bracket, have the same text if and only if they are the same path. |
| PathText.TextsApart | internal/gitops/diff.go:98-145 | Two rows of one comparison with such paths and the same text are one row. |
| PathText.DottedKeyReadsAsTwo | internal/gitops/diff.go:98-113 | A field with a dot in its name has the text of two fields, one inside the other. |
| PathText.BracketedKeyReadsAsElement | internal/gitops/diff.go:115-145 | A field named like a list with one of its elements has the text of that element. |
| WalkLaws.SwappedSides | internal/gitops/diff.go:74-145 | Swapping the sides of the walk reports the same paths, with added and missing exchanged and the values exchanged. |
| WalkLaws.SwappedComparison | internal/gitops/diff.go:62-145 | Swapping the sides of a comparison gives as many differences, and below the cap the same ones turned round. |
| Reordering.PermutingIsInvisible | internal/gitops/diff.go:98-145 | Permuting lists that are paired by key, at any depth and on either side, leaves the number of differences unchanged, and below the cap the paths and kinds the comparison lists. |
| Reordering.ShufflingIsInvisible | internal/gitops/diff.go:98-145 | In particular, two paired lists may be put in any orders at whatever place the walk finds them, under the comparison's own table of keys. |
| Reordering.PermutedIsReordered | internal/gitops/diff.go:115-145 | The structural permutation keeps every pairing key, so that every place is visited with the same values on the same sides. |
| Reordering.PermutedBelow | internal/gitops/diff.go:74-145 | What is permuted at any place the walk reaches, through fields, named elements and positions, is permuted in the whole. |
| Reordering.ShuffledLists | internal/gitops/diff.go:197-248 | Any permutations of two lists paired by key are such a permutation, whatever the elements hold. |
| Reordering.FieldsHaveTheirKeys | internal/gitops/diff.go:275-290 | Wherever a path starts and whatever its last field is named, the table of keys is asked for what stands after the last dot and before the first bracket of that name; this is the name itself exactly when it holds no dot and no opening bracket. |
| WalkLaws.CompareIsCappedWalk | internal/gitops/diff.go:62-67 | The comparison is a sorted permutation of the first 200 rows of the uncapped walk. |
| WalkLaws.CompareFindsNothing | internal/gitops/diff.go:62-67 | The capped comparison is empty exactly when the two trees mean the same. |
| WalkLaws.SecretsDoNotShow | internal/gitops/diff.go:147-181 | Two live Secrets that look alike outside their values, and disagree with the source at the same keys, give identical difference lists. |
| TreeWalk.CompareObjects | internal/gitops/diff.go:62-67 | The code computes the comparison of the specification. |
| TreeWalk.Differences.WalkBoth | internal/gitops/diff.go:74-96 | Appends to what was found exactly the rows of the walk, up to the cap. |
| TreeWalk.Differences.Maps | internal/gitops/diff.go:98-113 | The same for two objects: the source's keys in order, then the keys only the live side has. |
| TreeWalk.Differences.Lists | internal/gitops/diff.go:115-145 | The same for two lists, by name where a key names every element on both sides, by position otherwise. |
| TreeWalk.Differences.Add | internal/gitops/diff.go:147-165 | Appends one row, redacted under a Secret's data, unless the cap is reached. |
| TreeWalk.PairUp | internal/gitops/diff.go:197-225 | Pairs the elements by the first key that names every element on both sides, in source order and then the rest of the live order; fails exactly when there is none. |
| TreeWalk.IndexBy | internal/gitops/diff.go:229-248 | Indexes a list by a key, failing exactly when the key does not name each element apart. |
| RowLaws.NamedElementsPair | internal/gitops/diff.go:41-56 | Containers, environment variables and volumes whose names are all different are paired by name. |
| RowLaws.NumberedPortsPair | internal/gitops/diff.go:41-56 | Ports of which one has no name are paired by their numbers, when those are all different. |
| RowLaws.MountsPairByPath | internal/gitops/diff.go:41-56 | Mounts whose paths are all different are paired by path. |
| Order.LessMeans | internal/gitops/diff.go:292-299 | One text comes before another when it is a proper beginning of it or has the smaller character where they part. |
| Order.StableSortIsStable | internal/gitops/diff.go:62-67 | Elements that are equal to one another keep the order they came in. |
| TreeWalk.Sorted | internal/gitops/diff.go:292-299 | The keys of an object in ascending order, each once. |
| NothingHidden.DropLeavesNoStamp | internal/gitops/normalise.go:235-272 | No null creationTimestamp is left at any depth. |
| NothingHidden.DropIdempotent | internal/gitops/normalise.go:235-272 | Dropping null timestamps twice is dropping them once. |
| NothingHidden.DropKeeps | internal/gitops/normalise.go:235-272 | Every other value stays at its place, objects that were written empty included. |
| NothingHidden.EmptiedMeans | internal/gitops/normalise.go:249-272 | An object is taken out as emptied exactly when it held nothing but a null timestamp and objects emptied for the same reason. |
| NothingHidden.DropRemoves | internal/gitops/normalise.go:249-272 | A field is taken out exactly when it is a null timestamp or such an object. |
| NothingHidden.DefaultFieldsKeep | internal/gitops/defaults.go:183-214 | For any table of rules: a value goes missing only where the source is silent and the value is the rule's own. |
| ExactlyExcused.VanishesExactly | internal/gitops/normalise.go:75-167 | A value of the live object is missing from what is compared if and only if it is bookkeeping, a documented default where the source is silent, a null timestamp, or an empty annotation or label map the source is silent about. |
| ExactlyExcused.SourceGoesExactly | internal/gitops/normalise.go:75-207 | A value of the source, empty objects included, is missing from what is compared if and only if it is bookkeeping, a null timestamp, or an empty object in which a map is opened because the live object holds one. |
| ExactlyExcused.WrittenEmptyMapsGo | internal/gitops/normalise.go:222-233 | An annotation or label map of the live object that is written empty is not compared, where the source is silent about it. |
| ExactlyExcused.DefaultFieldsGo | internal/gitops/defaults.go:183-214 | For any table of rules whose values have nothing inside them: a value that is the rule's own where the source is silent is taken away. |
| DefaultLaws.PolicyOfImage | internal/gitops/defaults.go:126-151 | An image without a tag, or tagged latest, implies Always; with any other tag IfNotPresent. The colon of a registry's port is no tag. |
| DefaultLaws.ContainerFieldGoesExactly | internal/gitops/defaults.go:74-181 | Any field of a Deployment's container or init container is left out of the comparison if and only if the first source container of that name is silent about it and it is the pull policy its image implies or one of three documented values. |
| DefaultLaws.DefaultGoesExactly | internal/gitops/defaults.go:40-124 | Any field of a Deployment or of its pod template, outside lists and bookkeeping, is left out if and only if it is the documented default, named place by place, and the source holds nothing there. |
| DefaultLaws.PortAndVolumeDefaults | internal/gitops/defaults.go:96-124 | Of a port only the protocol TCP is a default, of a volume only a host path's empty type, where the source holds nothing. |
| DefaultLaws.BookkeepingMeans | internal/gitops/normalise.go:79-107 | Bookkeeping is the status and six fields of the metadata, and what is inside them. |
| DefaultLaws.PolicyByTag | internal/gitops/defaults.go:126-151 | So, with the source silent, a container whose image has no tag or the tag latest loses exactly Always, and one with any other tag exactly IfNotPresent. |
| DefaultLaws.NoShellIsLeft | internal/gitops/defaults.go:183-214 | Where a default was taken out, no object is left that holds nothing and that the source is silent about. |
| NothingHidden.NormalLiveIsPart | internal/gitops/normalise.go:75-167 | Normalisation only takes object fields away from the live object; it adds and alters nothing. |
| NothingHidden.LiveNothingNew | internal/gitops/normalise.go:75-167 | Every value compared for the live object is its own, at the same place; where an empty object is compared, it holds an object with nothing but excused values in it. |
| NothingHidden.SourceNothingNew | internal/gitops/normalise.go:75-207 | Every value compared for the source is its own, at the same place; where an empty object is compared, the source holds an object with nothing but excused values in it, or a map was opened there. |
| EqualIsSound.EqualExplainsLive | internal/gitops/service.go:225-261 | When the comparison finds nothing, every value of the live object is excused, or the source holds it under the same names; for an empty object, the source holds bookkeeping and nothing else there, or is silent about an annotation or label map. |
| EqualIsSound.EqualExplainsSource | internal/gitops/service.go:225-261 | When the comparison finds nothing, every value of the source, empty objects included, is excused, or the live object holds it under the same names; for an empty object, it holds excused values and nothing else there. |
| EqualVerdict.Judge | internal/gitops/service.go:238-291 | The verdict is Equal if and only if every row is system-managed; the meaningful rows come first, both kinds in their order, and both are counted. |
| EqualVerdict.VerdictExplainsLive | internal/gitops/service.go:237-261 | When fewer than 200 rows are found and all are system-managed, every value of the live object is excused, or at or inside one of those rows, or held by the source where the walk compares it. |
| EqualVerdict.VerdictExplainsSource | internal/gitops/service.go:237-261 | And every value of the source is excused, or held by the live object where the walk compares it; an empty object or list of the source may have grown there. |
| EqualVerdict.LabelRowsExactly | internal/gitops/classify.go:37-85 | Of the labels only the live object has, whatever their names, the two tracking labels are system-managed and no others. |
| EqualVerdict.AnnotationRowsExactly | internal/gitops/classify.go:37-85 | Of the annotations only the live object has, exactly its controller's revision is system-managed, and of those of its pod template exactly the time of a restart. |
| EqualVerdict.LookAlikesAreManaged | internal/gitops/classify.go:66-81 | A value two fields deep under the labels is system-managed exactly when the two names, joined by a dot, are a tracking label. |
| NormaliseCode.NormaliseBoth | internal/gitops/normalise.go:75-167 | The code, editing both documents in place, arrives at the two trees of the specification. |
| NormaliseCode.DropNullTimestamps | internal/gitops/normalise.go:249-272 | The recursive deletion computes the dropped tree and whether it was emptied. |
| NormaliseCode.Document.ApplyKindDefaults | internal/gitops/defaults.go:87-93 | Applies the defaults of a Deployment and of no other kind. |
| NormaliseCode.Document.ApplyPodSpec | internal/gitops/defaults.go:96-124 | Applies the pod defaults and those of its containers, init containers and volumes. |
| NormaliseCode.Document.ApplyList | internal/gitops/defaults.go:153-180 | Applies an element's defaults against its counterpart in the source, element by element. |
| NormaliseCode.Document.ApplyRules | internal/gitops/defaults.go:183-197 | Removes exactly the fields that hold their default where the source is silent. |
| NormaliseCode.Document.PruneUp | internal/gitops/defaults.go:205-214 | Removes the objects a removal left empty, from the inside out, while the source is silent about them. |
| NormaliseCode.Document.ComparePerKey | internal/gitops/normalise.go:190-207 | Opens in the source the maps the live side has, so that they are compared key by key. |
| EditScript.LcsIsUpperBound | internal/manifest/compare.go:105-120 | No common subsequence of two texts is longer than the number computed. |
| EditScript.LcsIsAchieved | internal/manifest/compare.go:105-120 | There is a common subsequence of that length. |
| EditScript.NoShorterScript | internal/manifest/compare.go:62-102 | No script that turns one text into the other inserts or deletes fewer lines than the texts' lengths less that number. |
| EditScript.GreedyIsShortest | internal/manifest/compare.go:73-102 | The greedy walk turns one text into the other with exactly that many insertions and deletions. |
| EditScript.PositionalTurns | internal/manifest/compare.go:122-156 | The positional script, too, turns one text into the other. |
| EditScript.FallbackOverApproximates | internal/manifest/compare.go:122-156 | The fallback reports at least as many added and removed lines as the minimal script. |
| EditScript.SwappedTexts | internal/manifest/compare.go:68-102 | Swapping the texts exchanges what is added and what is removed. |
| EditScript.NoChangeNoHunk | internal/manifest/compare.go:68-102 | A script has hunks exactly when it has edits. |
| EditScript.HunksAreRuns | internal/manifest/compare.go:62-102 | There is one hunk for every place where a change follows an unchanged line or begins the script. |
| EditScript.KeepSeparates | internal/manifest/compare.go:81-86 | An unchanged line ends a hunk: what comes after it is counted on its own. |
| EditScript.InsertsComeFirst | internal/manifest/compare.go:87-100 | Where putting a line in and taking one out lead equally far, the line is put in first. |
| EditCompare.Lcs | internal/manifest/compare.go:105-120 | The table holds the number for every pair of suffixes. |
| EditCompare.CountLines | internal/manifest/compare.go:62-102 | The walk over the table counts the insertions, the deletions and the runs of changes of the script that is reported. |
| EditCompare.Roughly | internal/manifest/compare.go:122-156 | The cheap count is that of the positional script, runs of changes included. |
| EditCompare.LinesTellTextsApart | internal/manifest/compare.go:163-169 | Two texts have the same lines exactly when they are equal up to trailing newlines. |
| EditCompare.TrimEndMeans | internal/manifest/compare.go:163-171 | Trimming takes the newlines at the end, all of them and nothing else. |
| EditCompare.CompareEdit | internal/manifest/compare.go:40-60 | For any reader of manifests: dirty, lines and hunks agree with each other, hunks are the runs of changes, and lines are minimal below the limit; equivalent if and only if both texts are readable and are the same object; invalid is why the edited text is not readable, and empty when it is. |
| Watches.Registry.Ensure | internal/kube/informer.go:209-290 | Nothing on a closed hub; otherwise a running watch that covers the request, either one there was, freshly used, or a new one, with at most 16 watches and no narrow watch beside an unfiltered cluster-wide one. |
| Watches.CoveringDelivers | internal/kube/informer.go:216-226 | A watch that covers a request delivers every object the request asks for, whatever its selectors mean. |
| Watches.UnfilteredCovers | internal/kube/informer.go:216-226 | Without selectors, a watch that reaches all that is asked for covers the request. |
| Watches.RedundantExactly | internal/kube/informer.go:235-244 | A cluster-wide watch of a type stops exactly the other watches it covers. |
| Watches.Registry.Evict | internal/kube/informer.go:378-394 | Brings the watches down to the number asked for, stopping exactly those it removes, none of them used later than any it keeps. |
| Watches.Registry.DiscardNarrow | internal/kube/informer.go:235-243 | Stops exactly the unfiltered single-namespace watches of one type. |
| Watches.Registry.Existing | internal/kube/informer.go:294-317 | A synced running watch that covers the request, or nothing, and nothing is started. |
| Watches.Registry.StopNamespace | internal/kube/informer.go:320-332 | Stops exactly the watches of one namespace. |
| Watches.Registry.Sweep | internal/kube/informer.go:354-374 | Stops exactly the watches idle for too long. |
| Watches.Registry.CloseWatches | internal/kube/informer.go:335-351 | Stops every watch and leaves none. |
| ChangeFeed.RunsAreConsistent | internal/kube/informer.go:398-470 | Over every run of events, timers and a close, the pending map, the windows and the changes handed out agree with the record of every event accepted. |
| ChangeFeed.NoChangeIsLost | internal/kube/informer.go:398-470 | In every state, each accepted event is told by exactly one change, or is still pending, or the hub closed over it. |
| ChangeFeed.NamedChangesAreExact | internal/kube/informer.go:412-470 | A change that is not full names exactly the objects of its window, at least one and at most 256; it is full exactly when there were more or a whole reading was asked for. |
| ChangeFeed.Feed.Accumulate | internal/kube/informer.go:412-443 | Takes an event into its window, or drops it on a closed hub. |
| ChangeFeed.Feed.Flush | internal/kube/informer.go:445-470 | Hands out the change of a window once, its names each once. |
| ChangeFeed.Feed.Close | internal/kube/informer.go:335-351 | Leaves nothing pending. |
| ChangeFeed.Hub.Close | internal/kube/informer.go:335-351 | Closed means no watches and nothing pending. |
| WatchErrors.ReportedOnceWhenRejected | internal/kube/informer.go:176-200 | Over every sequence of watch errors, the failure is reported at most once, and is exactly when a watch was answered unauthorised or the same watch forbidden twice. |
| WatchErrors.Handler.Handle | internal/kube/informer.go:185-200 | The handler keeps the count and the report of the specification. |
| Claims.TrackingRoundTrip | internal/argocd/ownership.go:255-272 | Reading a tracking annotation undoes writing it if and only if application, kind and name are there, no name holds a colon, group and namespace hold no slash, and neither end is white space. |
| Claims.ParsedIsWritten | internal/argocd/ownership.go:255-272 | Whatever is read from an annotation is what is written there, up to white space around it. |
| Claims.ColonsAreIgnored | internal/argocd/ownership.go:255-272 | An identity with a colon in any of its names is not read at all. |
| Ownership.AnnotationReads | internal/argocd/ownership.go:253-278 | The annotation reads as the Application, then group and kind, then namespace and name. |
| Claims.ListsResource | internal/argocd/ownership.go:302-317 | Whether the Application's status lists the object. |
| Claims.BestIsBest | internal/argocd/claim.go:123-190 | The Application kept is the first, by namespace and name, of those of the highest rank, and is none exactly when every rank is zero. |
| Claims.OnlyTheSetMatters | internal/argocd/ownership.go:152-228 | For any ranking, the same Applications in another order, or repeated, give the same answer. |
| Claims.MoreAppsRankHigher | internal/argocd/claim.go:192-203 | More Applications never lower the rank of the best. |
| Claims.ResolveClaim | internal/argocd/claim.go:123-190 | The resolver for a create keeps the best of the ranking by claim. |
| Claims.ResolveOwnership | internal/argocd/ownership.go:152-228 | The resolver for an edit keeps the best of the ranking by confidence. |
| Ownership.ConfidenceMeans | internal/argocd/ownership.go:166-202 | An Application is tracked exactly when the annotation is about this object and names it, by its own name or with its namespace in front; confirmed exactly when it is not and lists the object; a candidate exactly when neither and the label names it. |
| Ownership.ForeignAnnotationIsNone | internal/argocd/ownership.go:161-169 | An annotation that reads as another object's, or not at all, gives the answer of the object without one, for any Applications. |
| Ownership.ForeignAnnotationOpensNothing | internal/argocd/ownership.go:161-169 | And the editor's gate of the object without one. |
| Ownership.BestIsFirst | internal/argocd/ownership.go:172-184 | Of the Applications that claim equally much, the one named is the first by namespace and then by name. |
| Ownership.EntryNamesMeans | internal/argocd/ownership.go:302-316 | A status entry names an object by group, kind, namespace and name, a missing one reading as empty. |
| Ownership.EntryNamesOne | internal/argocd/ownership.go:302-316 | So it names the object it was written for and no other. |
| Ownership.ClaimMeans | internal/argocd/claim.go:123-190 | An Application claims a target by listing it, or else by deploying into its namespace. |
| Discovery.PagedMeans | internal/argocd/discovery.go:301-327 | A listing that is not truncated was followed to its last page and holds every item; a truncated one used up the budget with more to come; a refusal is an answer of the server. |
| Discovery.ListPaged | internal/argocd/discovery.go:301-327 | The loop over pages, under its budget. |
| Discovery.CompleteAnswersAreBacked | internal/argocd/discovery.go:123-266 | A complete answer, or one that Argo CD is absent, rests on a cluster-wide search no older than its lifetime, which saw those Applications to the last page or was told the resource is not served. |
| Discovery.SearchMeans | internal/argocd/discovery.go:183-289 | A cluster-wide search, exactly: absence only when discovery lists resources and not this one or the listing was answered with not found, completeness only then or when the listing was followed to its end, every Application listed, and why there may be more. |
| Discovery.SilenceIsNotAbsence | internal/argocd/discovery.go:279-289 | When discovery lists nothing, absence is concluded only from a listing answered with not found. |
| Discovery.NamespaceOnlyAdds | internal/argocd/discovery.go:236-266 | Looking into one namespace adds the Applications listed there and nothing else; what was unknown stays unknown, for the same reason. |
| Discovery.FallsBackExactly | internal/argocd/discovery.go:155-172 | With nothing remembered, one namespace is looked into exactly when the cluster-wide search fell short without finding Argo CD absent and the object has a namespace. |
| Discovery.HeldForItsLifetime | internal/argocd/discovery.go:116-149 | A stored answer is used again for fifteen seconds, or a minute when the listing was denied, and not longer. |
| Discovery.AskedAgainCostsNothing | internal/argocd/discovery.go:164-181 | A question asked again within the lifetime of a complete answer asks the cluster nothing and gets the same answer. |
| Discovery.RunsAreHonest | internal/argocd/discovery.go:123-181 | Over every run, every cached entry is a search that was made and expires by its own lifetime, and no entry for one namespace claims to be complete. |
| Discovery.Service.DiscoverApps | internal/argocd/discovery.go:164-181 | The code, with its cache, answers and remembers as the specification. |
| Gate.PartialCreateIsSafe | internal/argocd/claim.go:82-116 | A search that saw only some Applications is never contradicted by the complete one, and never opens the gate for a create. |
| Gate.PartialEditIsSafe | internal/argocd/ownership.go:46-135 | The same for an edit. |
| Gate.ManagedIsKept | internal/argocd/gate.go:21-85 | Managed on some of the Applications stays managed on more of them. |
| Gate.CreateRestsOnEvidence | internal/argocd/gate.go:21-41 | Over every run of questions, a create is allowed exactly when the status is unmanaged, and only if, within the cache lifetime, a listing followed to its last page held no claiming Application, or the resource was reported as not served. |
| Gate.EditRestsOnEvidence | internal/argocd/gate.go:52-85 | The same for an edit, and unless the resource is not served the object itself was read. |
| Ownership.EditGateMeans | internal/argocd/gate.go:52-85 | The editor's gate, exactly: Managed when some Application tracks or lists the object, Unmanaged when a complete search found none that does or whose name is on its label, else Unknown for the reason the search gives; and which Application it names. |
| Ownership.CreateGateMeans | internal/argocd/gate.go:21-41 | The gate for a create, exactly: claimed when an Application lists the target or deploys into its namespace, open only after a complete search that found neither. |
| Ownership.NamespaceClaimCounts | internal/argocd/discovery.go:155-172 | Where the cluster-wide listing falls short, an Application found beside the object that tracks or lists it makes the gate say Managed. |
| SharedCache.SharedAnswersAreBacked | internal/argocd/discovery.go:123-181 | However the reads and writes of any number of questions are interleaved, a complete answer rests on a cluster-wide search no older than its lifetime. |
| SharedCache.SharedCreateRestsOnEvidence | internal/argocd/discovery.go:164-181 | And so does an open gate, for a create. |
| SharedCache.SharedEditRestsOnEvidence | internal/argocd/discovery.go:164-181 | And for an edit, of an object that was read unless the resource is not served. |
| Sessions.RunsAreSound | internal/cluster/manager.go:390-935 | Over every interleaving, hubs, guards, epochs, clients and states stay consistent. |
| Sessions.InstalledHubs | internal/cluster/manager.go:517-569 | A hub that was installed is open exactly when exactly one session holds it. |
| Sessions.ConnectedSessions | internal/cluster/manager.go:517-569 | A connected session has a client, an open hub, and an epoch of its own, which its snapshot carries. |
| Sessions.SnapshotsAreTheirOwn | internal/cluster/manager.go:318-355 | In every state, refreshed or not, a session's snapshot carries that session's epoch. |
| Catalogues.StoredIsOwnExactly | internal/cluster/manager.go:319-351 | What a refresh stores was read with the session's own client if and only if the session still has the client the refresh began with; it is stamped with the session's epoch either way. |
| Catalogues.AnotherComesFrom | internal/cluster/manager.go:319-351 | Of all steps of all goroutines, exactly the storing of a refresh under another client puts another client's catalogue in a session. |
| Catalogues.ReadingsStayOwn | internal/cluster/manager.go:319-351 | Over every run without such a store, every session shows what its own client read. |
| Catalogues.ReconnectShowsAnother | internal/cluster/manager.go:319-351 | A cluster connected anew while its catalogue is being read ends with the old client's catalogue under the new session's epoch. |
| Sessions.OneConnectEach | internal/cluster/manager.go:396-408 | No two goroutines are past Connect's guard for one cluster. |
| Sessions.AtRest | internal/cluster/manager.go:390-569 | When every goroutine has ended, no cluster is marked or shown as connecting, and no hub is open that a session does not hold. |
| Sessions.ClosedForGood | internal/cluster/manager.go:696-731 | A hub that was closed is never open again. |
| Sessions.OthersUntouched | internal/cluster/manager.go:390-935 | A step about one cluster leaves every other cluster's session, guard, toggle and hub alone. |
| Sessions.ConnectSucceeds | internal/cluster/manager.go:390-569 | An undisturbed Connect that succeeds ends connected over a new hub, with the previous hub closed, the guard given back and nothing else changed. |
| Sessions.ConnectFails | internal/cluster/manager.go:471-495 | An undisturbed Connect that is refused at the version check ends in the failure's state, never connected, keeping whatever hub the cluster had. |
| Sessions.ConnectGivesUp | internal/cluster/manager.go:410-470 | One that gives up before it has a client (configuration, access, network) does the same, and no client is built. |
| Retries.StateForMeans | internal/cluster/diagnosis.go:131-144 | Of the failures only a customer network that is down leaves a cluster waiting, only credentials leave it unauthorised, only configuration and helper leave it failed. |
| Retries.FailedConnectIsRetriedExactly | internal/cluster/manager.go:889-915 | After an undisturbed Connect that fails, early or at the version check, the cluster is tried again when its network comes up if and only if the network was what failed. |
| Retries.LostAccessIsRetried | internal/cluster/manager.go:771-829 | A session over a forward that was lost is tried again; one torn down for its credentials is not. |
| Retries.TransitionKeeps | internal/cluster/manager.go:917-935 | Writing a state touches nothing else a session holds, and no other session. |
| Sessions.Manager.Enter | internal/cluster/manager.go:396-402 | Takes the guard as a step of the protocol, and is refused exactly while another Connect of the cluster is past it. |
| Sessions.Manager.Exit | internal/cluster/manager.go:404-408 | The deferred end of Connect as a step of the protocol: afterwards no Connect of the cluster is past the guard. |
| Sessions.Manager.Transition | internal/cluster/manager.go:917-935 | Writes a state as the step of the goroutine that announces an attempt, ends one or ends a teardown; everything else a session holds stays. |
| Sessions.Manager.Accept | internal/cluster/manager.go:529-534 | Opens a hub no session has and draws an epoch, for the goroutine whose client was answered. |
| Sessions.Manager.Install | internal/cluster/manager.go:538-565 | Replaces the session as a step of the protocol: the cluster is connected over the new hub, which is open, and the hub it had is closed. |
| Sessions.Manager.Disconnect | internal/cluster/manager.go:696-711 | As a step of the protocol: no session is left, the hub it had is closed, the read-only toggle is gone. |
| Sessions.Manager.CloseAll | internal/cluster/manager.go:718-731 | The loop is one step of the protocol: no session is left and every hub one held is closed. |
| Sessions.Manager.SuspendForAccessDown | internal/cluster/manager.go:771-796 | Tears down exactly a connected session that used a forward, closes its hub, and leaves a goroutine to write that the cluster waits. |
| Sessions.Manager.SuspendForAuthFailure | internal/cluster/manager.go:800-829 | Tears down exactly a connected session, closes its hub, and leaves a goroutine to write that it is unauthorised. |
| Sessions.Manager.TearDownAfterProbe | internal/cluster/manager.go:856-882 | The same after a failed probe, with the state the failure reads as. |
| Sessions.Manager.StartResume | internal/cluster/manager.go:834-843 | Gives a client to probe with exactly for a connected session. |
| Sessions.Manager.StoreCatalogue | internal/cluster/manager.go:329-351 | Stores the new snapshot as a step of the protocol, under the epoch of the session there is by then; fails exactly when there is none. |
| Sessions.Manager.DiscoverySnapshot | internal/cluster/manager.go:307-315 | Hands a snapshot out exactly for a cluster whose session holds a hub, and it carries that session's epoch and no other session's. |
| LogPump.ChunksAreInOrder | internal/logs/service.go:164-231 | Over every interleaving, the lines handed out are a prefix of the lines scanned, no chunk exceeds 200, only the last may be empty, and the chunk that says done comes once and last. |
| LogPump.CleanEndDeliversAll | internal/logs/service.go:164-231 | Without a cancellation or a scan error, every line is delivered, in order, and the end is said without an error. |
| LogPump.HandedOutWhen | internal/logs/service.go:205-230 | All lines held are handed out at a tick and at two hundred of them, and none before. |
| LogPump.WhatAnEndDelivers | internal/logs/service.go:205-230 | In every reachable state, whatever ends the pump: every line scanned is delivered exactly when none is in the channel, in hand or given up, and the last chunk carries an error exactly when the error ended it. |
| LogPump.WhatAnErrorCosts | internal/logs/service.go:183-216 | A scan error that waits loses lines exactly when some are in the channel, and can itself be lost exactly when the channel is empty and closed. |
| LogPump.ErrorOrEveryLine | internal/logs/service.go:164-231 | Over every interleaving without a cancellation, a failed scan is told in the last chunk or every line was delivered; never neither. |
| LogPump.ErrorMayOvertake | internal/logs/service.go:183-216 | An error does overtake a line in the channel. |
| LogPump.ErrorMayBeLost | internal/logs/service.go:184-214 | An error is lost when the end of the channel is taken first. |
| LogPump.ReaderIsNotStranded | internal/logs/service.go:174-184 | Once the consumer has returned, a reader that still offers a line can stop. |
| LogPump.Batcher.Flush | internal/logs/service.go:193-203 | Hands out the batch, unless there is nothing to say. |
| LogPump.Batcher.Pump | internal/logs/service.go:205-230 | The consumer's loop is the consumer of the specification. |
| Customers.StoreIsTidy | internal/cluster/repository.go:107-328 | Over every sequence of operations from an empty store, visibility records have distinct keys, each differs from its section's default, and each is for the archive or a customer some cluster names. |
| Customers.SetReadsBack | internal/cluster/repository.go:278-301 | A visibility that is set reads back, and no other section's changes. |
| Customers.ChoicesOutlive | internal/cluster/repository.go:395-423 | Every other operation keeps the visibility of the archive and of customers still named, and returns the rest to their default. |
| Customers.ContextsStayUnique | internal/cluster/repository.go:107-205 | Contexts stay apart under every operation but an edit, and under an edit exactly when no other cluster has the context it moves to. |
| Customers.CreatedMeans | internal/cluster/repository.go:107-137 | A new cluster is refused exactly when the form is incomplete or its context has a cluster; else it comes last, as the form says, and nothing else changes. |
| Customers.UpdatedMeans | internal/cluster/repository.go:139-176 | An edit changes what is on the form, of one cluster; its identifier, archive flag and creation stay, and its labels when the form says nothing about them; no other cluster changes or moves. |
| Customers.FiledAndDeletedMean | internal/cluster/repository.go:178-212 | Filing changes one cluster's flag; deleting takes the clusters of one identifier and no others; both fail exactly when there is none. |
| Customers.SectionsByCustomer | internal/domain/cluster.go:93-118 | Clusters are in one section by the customer's identifier, or, without one, by its name, white space aside. |
| Customers.ShownMeans | internal/cluster/repository.go:278-307 | A section can be shown or hidden exactly when it has a key and is the archive or some cluster's. |
| CustomerGroups.GroupsPartition | internal/cluster/repository.go:214-261 | The sections have distinct keys, each holds exactly the clusters of its key in list order, every cluster is in one, none but the archive is empty, and the archive is there once and last. |
| CustomerGroups.HeadedByTheFirst | internal/cluster/repository.go:214-250 | Every section is shown under the heading of its first cluster in the list. |
| CustomerGroups.ListIsInOrder | internal/cluster/repository.go:38-55 | The list is by customer, within a customer with production last, and then by name. |
| CustomerGroups.SectionsAreInOrder | internal/cluster/repository.go:214-262 | The customers' sections are in the order of their headings, capitals and small letters alike. |
| CustomerGroups.NamelessBeforeArchive | internal/cluster/repository.go:214-262 | After the section of clusters without a customer comes the archive and nothing else. |
| CustomerGroups.ArchiveAndBack | internal/cluster/repository.go:309-328 | A cluster archived and taken back out leaves the sections exactly as they were. |
| CustomerGroups.AwayIsInTheArchive | internal/cluster/repository.go:309-328 | While it is away, the cluster is listed in the archive. |
| Archive.ArchiveHoldsTheArchived | internal/domain/cluster.go:113-118 | In any state, the archive's section holds exactly the archived clusters if and only if every cluster whose customer carries the archive's key is archived. |
| Archive.StraysComeFrom | internal/cluster/repository.go:107-328 | For each operation exactly when it first puts a cluster in the archive that was not sent there. |
| Archive.ArchiveIsWhatWasPutThere | internal/cluster/repository.go:107-328 | Over every sequence of operations whose forms avoid the key, by identifier and by name, the archive holds exactly the archived clusters. |
| Archive.ArchiveKeyCanBeTyped | internal/domain/group.go:7-13 | In any state, a form whose customer carries the key, by identifier or by name, makes a cluster that is listed in the archive without being archived. |
| Repository.Store.Create | internal/cluster/repository.go:107-136 | Refuses an invalid input or a context that is taken; a refused write changes nothing. |
| Repository.Store.Update | internal/cluster/repository.go:139-174 | Keeps the identifier, the creation time, the archive flag and unlisted labels, and prunes. |
| Repository.Store.Delete | internal/cluster/repository.go:178-205 | Removes the cluster and prunes; fails exactly when there is none. |
| Repository.Store.SetArchived | internal/cluster/repository.go:309-328 | Moves one flag and prunes. |
| Repository.Store.SetGroupHidden | internal/cluster/repository.go:278-301 | Records only what differs from the default, and refuses a section that cannot be hidden. |
| Repository.Store.Gather | internal/cluster/repository.go:214-240 | One pass with an index groups the clusters by key, in the order keys first appear. |
| Repository.PruneCustomers | internal/cluster/repository.go:412-423 | Keeps exactly the records of the archive and of customers still named. |
| AutoImport.ImportedAtMostOnce | internal/autoimport/autoimport.go:140-207 | Over every run of imports, edits and deletions in which Sync's own marks are saved, Sync makes a cluster of a context at most once until its kubeconfig is forgotten. |
| AutoImport.SyncPassesNothingOver | internal/autoimport/autoimport.go:135-152 | After an enabled Sync every listed context is a cluster or marked, and no existing cluster is changed. |
| AutoImport.SyncAddsExactly | internal/autoimport/autoimport.go:95-180 | An enabled Sync adds a context if and only if it is not marked, has no cluster, and one of its candidates is valid and its write saved. |
| AutoImport.AddedOnce | internal/autoimport/autoimport.go:159-180 | One import adds each context at most once, only where there was no cluster, and keeps every cluster there was. |
| AutoImport.ScanMeans | internal/autoimport/autoimport.go:95-133 | A scan offers exactly the listed contexts without a cluster, each with its file, its environment and whether it is marked, by file and then by context. |
| AutoImport.ImportMeans | internal/autoimport/autoimport.go:159-180 | Every cluster an import adds is made of one of its candidates, under the context's name and in the environment it was classified as; every candidate is added or reported as failed. |
| AutoImport.ForgottenMeans | internal/kubeconfig/service.go:167-200 | Forgetting a kubeconfig unmarks its contexts, unless a cluster still uses it, and touches nothing else. |
| AutoImport.UnsavedMarkRecreates | internal/autoimport/autoimport.go:173-177 | From any state and for any context: one that Sync made a cluster of and whose cluster has gone is made again by the next Sync exactly when the mark was not saved. |
| AutoImport.Importer.Scan | internal/autoimport/autoimport.go:95-133 | The candidates are the listed contexts without a cluster, each with whether it was seen, in order. |
| AutoImport.Importer.Import | internal/autoimport/autoimport.go:159-180 | Creates candidate by candidate, reports what failed, and marks them all. |
| AutoImport.Importer.MarkSeen | internal/autoimport/autoimport.go:182-207 | Marks each context once. |
| AutoImport.Importer.Synchronise | internal/autoimport/autoimport.go:140-152 | Imports exactly the unseen candidates, when enabled. |
| Manifests.SplitUndoesPrinting | internal/authoring/manifest.go:27-65 | Splitting the printed join of documents gives those documents back, in order, exactly when each holds more than comments and blanks and has no line that reads as a separator or ends in a carriage return. |
| Manifests.SplitIsClean | internal/authoring/manifest.go:27-51 | No document of a manifest is empty of content or holds a separator line. |
| Manifests.SeparatorMeans | internal/authoring/manifest.go:27-51 | A separator line is three dashes with nothing but blanks and tabs after them. |
| Manifests.ContentMeans | internal/authoring/manifest.go:53-65 | A document has content exactly when some line of it is neither blank nor a comment. |
| Manifests.Cut | internal/authoring/manifest.go:27-51 | The splitting loop computes the documents of the specification. |
| Manifests.Print | internal/authoring/manifest.go:198-214 | Prints the documents there are, trimmed and joined; nothing to print is an error. |
| Manifests.KeysTellApart | internal/authoring/manifest.go:183 | Among objects whose kind, namespace and name hold no slash, the joined key tells any two apart, whatever slashes the version holds. |
| Manifests.KeyIsUniqueExactly | internal/authoring/manifest.go:183 | An object's key is its alone if and only if none of its four fields holds a slash. |
| Manifests.DuplicateProblems | internal/authoring/manifest.go:176-195 | Exactly the documents whose key repeats are reported, each once, against the first of that key; and where no kind, namespace or name holds a slash, exactly those that repeat an object. |

## Left out

- Numbers are their JSON text. A list element named by a number that is not an integer is named by that text.
- The rendered value of a row (at most 240 characters), sentences, labels, probe details and diagnoses; the enum or state they accompany is kept.
- Paths are sequences of segments. `PathText` says which are told apart by their text; for texts shared by several paths, four families are given and not all of them.
- EqualVerdict.VerdictExplainsLive: says nothing of a comparison that was cut off at 200 rows, all of them system-managed. Labels, explanations and the implied number of replicas are not part of this model.
- Elements of a decoded tree are values, written back into their list after an edit; aliasing between the pieces of one tree is not modelled.
- `RemoveNestedField`, `SetNestedMap`, sorting and reading a JSON or YAML document are library steps.
- `defaultList` finds the counterpart of a port by another key than the comparison pairs ports by. The soundness of an Equal verdict does not depend on it.
- The search for the manifest in Git, the file budget, the tally of differences and the refusals around a comparison.
- How `CompareEdit` reads a text as a manifest is an input of it.
- White space is ASCII white space, and lower case is ASCII lower case.
- Informers, their synchronisation and the sweep's ticker: a watch's synced flag, the clock and the firing of timers are inputs. A hub made without a `notify` function is not modelled.
- ChangeFeed.Feed.Notify: the call happens after the lock is released, so it is a step of its own, and nothing is stated about its order with a close.
- The hub's two halves, the watches and the feed, are one struct under one lock in the program; here they are two classes closed together.
- Applications are immutable values; the cache key is a datatype where the program joins two strings with a zero byte.
- Repositories and paths an Application deploys from (`sourcesOf`, `describeSource`) and the generator of an Application.
- What Connect reads between its critical sections (access, TCP, version, namespaces, catalogue) is an outcome of a step. Of a session, the namespace, the forwards shown and the diagnosis are left out, and a session is a value in the map rather than a pointer. `RetryWaiting` is a number of Connects, of the clusters `Retries.IsRetried` holds of; the access profile of a cluster is an input.
- A session's client, hub and epoch are drawn from one counter, which stands for allocation and for fresh identifiers; the read-only queries beside `DiscoverySnapshot` are left out.
- `Client.Close` does nothing in the program, so whether a replaced client was closed is not tracked.
- The log service's table of streams, truncation of lines over 64 KiB and the text of an error.
- The environment guessed for a record that stores none, preferences and saved views of a deleted cluster, and adopting an access profile.
- The classification of an environment from a context's names is an input of automatic import, and so are fresh identifiers and the clock. Forgetting a kubeconfig that is not there is not told apart from forgetting one that is. Each Sync reads and writes the store without others in between.
- Lines of a manifest over 4 MiB, at which the scanner stops, and the identity and namespace checks of single documents.
