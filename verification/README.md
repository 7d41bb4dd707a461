# g2way: a verified model of its gateway logic

g2way is an API gateway. This project models its most intricate parts and
proves what they are for:

- **Federation** (`Plan`, `Planner`, `Printing`, `Wire`, `Resolver`,
  `Executor`, `Meaning`, `Refinement`, `Convergence`, `Conformance`,
  `Replies`, `EndToEnd`, `Serving`, `Gateway` and their helpers). A client query over
  several GraphQL subgraphs is split by field ownership into sub-queries and a
  tree of entity fetches; the fetched entities are merged back into the
  response. The main theorem says the client sees what one server holding the
  whole store would answer.
- **Composition** (`Compose`, `Composition`, `Supergraph`, `Totality`,
  `Augment`). Subgraph schemas are merged into ownership and key tables;
  composition succeeds exactly on its rules, and its success is all the planner
  needs.
- **Caches** (`Recording`, `Cache`, `JsonText`, `GraphQlCache`, `Base64`). A
  streaming tee records upstream bodies; hits replay exactly what was answered.
- **Request signatures** (`SignatureHeader`, `SigningString`).
- **Stored-key admission** (`Admission`) over histories of admin writes.
- **API definitions** (`Definitions`): validation through versions, and merging
  of sources.

## How the federation model reads

`GraphQl` gives selections their meaning over a store of typed objects
(`Complete`, `EvalObj`), with field collection and merging. `Plan` is the
planner as functions on selections with spreads inlined; `Planner` is the
planner as it works, appending tokens and fetches to a sink with a path that is
pushed and popped, proved equal to `Plan`. `Resolver` is the executor as
functions, `Executor` its loops and in-place merge, proved equal to `Resolver`.
`Exec` says what a fetch tree does to one object, `Refinement` that the batched
executor does just that, `Meaning` that the outcome answers the client, and
`EndToEnd` ties them together against subgraphs that validate and execute
requests (`Serve`). `Gateway` runs a document: it joins `Planner` and
`Executor` through the text that is posted (`Wire`), against subgraphs that
read that text back (`Serving`). `Convergence` asks less of the subgraphs: it
says exactly which plans let every merge find the objects it collected,
whatever comes back under the asked keys; `Conformance` says which queries do
so for replies in the shape of their requests, and `Divergence` shows two
queries that do not. `Replies` is about replies that are not faithful: which
data survives errors, which entity reaches which object, what is reported.

A subgraph answers from its own view of one shared store: the fields it owns
and the key fields it declares, null for the rest. Of a valid query the theorem
asks six rules (`Rule` in `PlanFacts`):

- `ClientKeys`: response keys avoid `g2__` and `__typename`.
- `OneCut`: a response key with selections is cut in one fetch per object.
- `KnownConditions`: a fragment condition is the parent type or one the
  subgraph defines.
- `Decidable`: below an abstract condition other than the parent type there is
  no fetch.
- `ThroughAbstract`: a field selected through an abstract type is one the
  subgraph owns.
- `OwnRoots`: on a root type below the root, only the subgraph's own fields are
  selected.

For each rule `Necessity` gives a query that keeps the other five, on one
sound supergraph (`Witness`), and is answered wrongly. Of the store the theorem
asks that keys are non-null leaf values that identify an entity and that a
subgraph returns objects of types it defines. `Example` and `ComposedExample`
meet every hypothesis with a concrete query.

Where the source and its documentation differ, the model follows the source:

- The loader documents that listen paths compare modulo one trailing slash; it
  trims all of them (`Definitions.AllSlashesDropped`).
- The merge's length check is commented as unreachable by construction, because
  merged fields are new keys on entity objects; a fetched `__typename` alias and
  a member that only an interface keeps local are not, and reach it
  (`Divergence.TypenameReplaced`, `Divergence.MemberReplaced`).
- The signing string cites draft-cavage-http-signatures; there the line for
  `(request-target)` starts with that name and a colon, here it does not
  (`SigningString.TargetLine`).
- Variables that are not JSON are documented as a spurious miss, never a leak;
  with a line break in them they can hit another operation's entry
  (`GraphQlCache.CommentCollides`).
- The `{scope}:graphql` prefix is documented as keeping GraphQL entries apart
  from HTTP entries; the digests do that, not the prefix
  (`Cache.PrefixesCoincide`, `Cache.KeysExact`).

## Model

| member | source | states |
|---|---|---|
| `Gateway.AnswerDocument` | crates/g2-middleware/src/graphql_federation.rs:687-757 | Main theorem for the gateway as it runs. A client document with spreads is planned into text by the printing planner, the text is posted to subgraphs that read, validate and execute it, the fetch tree is resolved and merged in place, and the stitched data is exactly the response of one server executing the document on the whole store |
| `Gateway.RunRootField` | crates/g2-middleware/src/graphql_federation.rs:687-757 | `run_root` over any subgraphs: planning from the document, posting the text and resolving in place. A field error arises exactly when the field cannot be planned, the fetch fails, or the reply lacks the member and reports errors; a member the reply has is the value, with all fetches below it merged, whatever errors come with it |
| `Gateway.RunDocument` | crates/g2-middleware/src/graphql_federation.rs:687-757 | Every response key of the document is answered once, with the value specified for it |
| `Replies.RootValueExact` | crates/g2-middleware/src/graphql_federation.rs:735-757 | The same of the specification, for every reply: the reply's own data decides whether the member is there |
| `Replies.DocumentSame` | crates/g2-middleware/src/graphql_federation.rs:721-755 | Subgraphs that fail on the same requests and give the same data get the client the same response, member by member, whatever error counts they report: partial data beside errors is data |
| `Replies.ResolveSame` | crates/g2-middleware/src/graphql_federation.rs:822-849 | Resolution likewise: values, number of fetches and problems but for the counts depend only on which fetches fail and on their data |
| `Replies.EntityDelivered` | crates/g2-middleware/src/graphql_federation.rs:830-892 | For every reply, whatever errors it reports, stated on its `_entities` list: the i-th walked object receives the entity whose index is the number of representations sent before its own, with that entity's own fetches resolved, and nothing when it sent none or that entity is missing or no object |
| `Replies.NothingDelivered` | crates/g2-middleware/src/graphql_federation.rs:814-838 | A fetch that fails, or whose reply has no entity list, leaves every value alone |
| `Replies.EveryFetchReported` | crates/g2-middleware/src/graphql_federation.rs:815-849 | No failure is silent and none is invented: apart from merges that missed their objects, the problems are, request by request, a failure or the number of errors of its reply; each request is one fetch |
| `Replies.RepExact` | crates/g2-middleware/src/graphql_federation.rs:902-920 | Any object is represented exactly when it names the fetched type or none and holds every key field, aliased member first, not null; the representation carries just those values and the type name |
| `Replies.StitchExact` | crates/g2-middleware/src/graphql_udg.rs:731-767 | Stitching any object gives exactly the selected response keys: the type name, leaves passed on, null for a missing member, and null for an object at an abstract type that names no type |
| `Gateway.QueryPlannable` | crates/g2-middleware/src/graphql_federation.rs:405-408 | Every root field of a supported document with defined fragments can be planned |
| `Gateway.CollectExpanded` | crates/g2-middleware/src/graphql_federation.rs:412-466 | Collecting root fields through the document's fragments is collecting from the document with its spreads inlined |
| `Serving.ServedText` | crates/g2-middleware/src/graphql_federation.rs:642-668 | Printing a request as text and reading it back changes no answer: what a subgraph validates and executes depends on nothing the text does not show |
| `EndToEnd.FederationPreservesMeaning` | crates/g2-middleware/src/graphql_federation.rs:687-757 | Main theorem on inlined selections. For every supergraph with sound tables, every typed store, every query that keeps the six rules and subgraphs that validate and execute what they receive on their own view of the store: splitting, fetching, resolving entities, merging and stitching return exactly the response of direct execution on the store |
| `Supergraph.ComposedFederation` | crates/g2-core/src/federation.rs:379-563 | The same for the tables composition produces: successful composition replaces every assumption about the tables |
| `EndToEnd.RootAnswered` | crates/g2-middleware/src/graphql_federation.rs:687-757 | One root field, planned, fetched, resolved and merged: its value answers every occurrence of that field in the query |
| `Convergence.ConvergesExactly` | crates/g2-middleware/src/graphql_federation.rs:855-878 | The branch marked unreachable, exactly: over all runs in which each fetch may fail or bring anything under the keys it was asked for, short, long and null entity lists included, no merge walk misses the objects it collected, at any depth, if and only if no fetch that can be made has its path crossed by an earlier sibling, that is, ends where the sibling goes on and brings a key it goes on through or the `__typename` it asks for |
| `Convergence.PlansConvergeExactly` | crates/g2-middleware/src/graphql_federation.rs:855-878 | The same for the fetch tree of every client selection, whatever the tables: the plan converges in every run exactly when its fetches are apart |
| `Convergence.MergesConverge` | crates/g2-middleware/src/graphql_federation.rs:855-892 | One level of merges: where no earlier merge touches what a later path reads on these values, every merge finds its objects |
| `Convergence.ResolveMay` | crates/g2-middleware/src/graphql_federation.rs:762-896 | The resolver against any subgraphs whose entities hold only asked keys is one of those runs |
| `Conformance.NeverDiverges` | crates/g2-middleware/src/graphql_federation.rs:867-878 | For valid root selections and all replies in the shape of their requests (a `__typename` the position admits, selected keys only; wrong data, missing fields and bad entity lists included): no merge walk misses its objects, at any depth, when no foreign field answers under `__typename` and each local field that fetches go on through is local on every type its objects may have. None of the other query rules is asked for |
| `Conformance.RulesUndisturbed` | crates/g2-middleware/src/graphql_federation.rs:855-860 | Two of the six query rules, on client keys and on abstract types, imply that condition |
| `Divergence.TypenameReplaced` | crates/g2-middleware/src/graphql_federation.rs:867-878 | `{ n { ... on U { __typename: e } ... on U { f { e } } } }` on faithful subgraphs: it keeps every rule but the one on client keys, both sub-queries are accepted, the first merge replaces `__typename`, and the run reports divergence |
| `Divergence.MemberReplaced` | crates/g2-middleware/src/graphql_federation.rs:867-878 | `{ n { ... on U { h { e } } h { e } } }` keeps every rule but the one on abstract types; with replies that conform to their requests the first merge replaces `h`, and the run reports divergence |
| `EndToEnd.FaithfulConverges` | crates/g2-middleware/src/graphql_federation.rs:867-878 | Against faithful subgraphs, resolving a root field of a query that keeps the six rules reports no divergence |
| `EndToEnd.ServedFaithfully` | crates/g2-middleware/src/graphql_federation.rs:807-853 | Every sub-operation of a plan passes the receiving subgraph's validation, and its answer depends only on its own representations |
| `EndToEnd.EntityVariables` | crates/g2-middleware/src/graphql_federation.rs:642-684 | An `_entities` operation declares each variable its text uses, nothing it does not use except the representations, and no name twice (sections 5.8.1, 5.8.3 and 5.8.4 of the GraphQL specification) |
| `EndToEnd.RootVariables` | crates/g2-middleware/src/graphql_federation.rs:642-675 | A root operation declares exactly the client variables its text uses, each once |
| `Variables.UsedAgree` | crates/g2-middleware/src/graphql_federation.rs:670-675 | Filtering definitions and values to the used variables and adding the representations leaves every used variable with the value the client gave or defaulted |
| `Variables.BindExact` | crates/g2-middleware/src/graphql_federation.rs:670-675 | Under distinct declarations a variable is what the client gave, else its own default, else unset |
| `Variables.EvalEnv` | crates/g2-middleware/src/graphql_federation.rs:642-675 | Environments that agree on the used variables give the same response, so the filtered operation means what the client's did |
| `GraphQl.ProjectAnswers` | crates/g2-middleware/src/graphql_udg.rs:708-870 | Stitching by response key turns any JSON that answers every selected field into exactly the response of direct execution |
| `Planner.Planner.PrintField` | crates/g2-middleware/src/graphql_federation.rs:325-367 | Appends exactly the rendered field pruned to the subgraph, the variables that text uses and the child fetches under its response key, restores the path; succeeds exactly when every spread inside is defined and every foreign field has a reachable owner |
| `Planner.Planner.PrintFragment` | crates/g2-middleware/src/graphql_federation.rs:417-466 | A fragment, inline or spread, prints its set under its condition; the condition is on the path exactly when it differs from the parent type |
| `Planner.Planner.PrintSelections` | crates/g2-middleware/src/graphql_federation.rs:387-468 | One pass over a selection set: local selections printed in order, foreign fields grouped by target in first-use order, exactly as the inlined document prescribes |
| `Planner.Planner.InjectKeys` | crates/g2-middleware/src/graphql_federation.rs:469-481 | Injects each key field of a target once, under its alias, and remembers it |
| `Planner.Planner.PrintCut` | crates/g2-middleware/src/graphql_federation.rs:469-509 | One target's cut: its key fields, then a child fetch carrying the fields printed for that subgraph |
| `Planner.Planner.PrintCuts` | crates/g2-middleware/src/graphql_federation.rs:469-511 | All cuts of a selection set, in order, one child fetch per target |
| `Planner.Planner.PrintSet` | crates/g2-middleware/src/graphql_federation.rs:373-512 | A whole selection set: `__typename`, the local part, injected keys, child fetches; termination by fragment rank, then selection size |
| `Planner.Planner.PlanRoot` | crates/g2-middleware/src/graphql_federation.rs:293-321 | Succeeds exactly when the root field has an owner and everything below can be planned; the plan is the specification's text, variables and fetch tree |
| `Printing.SelsTrip` | crates/g2-middleware/src/graphql_federation.rs:333-369 | Sub-query text is unambiguous: every printed selection set is read back token for token as the selection it was printed from |
| `Plan.GroupsPairs` | crates/g2-middleware/src/graphql_federation.rs:405-410 | Grouping foreign fields loses none and sends each to its picked target |
| `Plan.GroupsExact` | crates/g2-middleware/src/graphql_federation.rs:405-410 | Targets are pairwise distinct and stand in the order of first use, and each group holds exactly the fields with its target, in their order |
| `Plan.OneFetchPerTarget` | crates/g2-middleware/src/graphql_federation.rs:469-511 | The foreign fields of one selection set cost one fetch per distinct target, each asking its subgraph by that subgraph's key for all it is to answer there |
| `Plan.CutsExact` | crates/g2-middleware/src/graphql_federation.rs:384-392 | A selection set leaves to others exactly the non-meta fields of an entity whose recorded owners do not include the asked subgraph |
| `Plan.OwnedCostsNothing` | crates/g2-middleware/src/graphql_federation.rs:384-408 | What one subgraph owns throughout costs no further fetch |
| `Plan.InjectedExact` | crates/g2-middleware/src/graphql_federation.rs:469-481 | A selection set is asked for exactly the key fields its fetches need, each once |
| `Plan.FirstReachable` | crates/g2-middleware/src/graphql_federation.rs:515-527 | The picked target is the first recorded owner that has a key of its own |
| `Together.SiblingsAnswered` | crates/g2-middleware/src/graphql_federation.rs:405-410 | `{ u { p { a } p { b } } }` keeps every rule, the one on double cuts included, costs one fetch, and answers both `a` and `b` |
| `Totality.PlansExactly` | crates/g2-middleware/src/graphql_federation.rs:373-527 | The planner accepts a document exactly when its spreads are defined and each foreign field of the inlined selections has a target |
| `Totality.SoundPlans` | crates/g2-middleware/src/graphql_federation.rs:405-408 | With sound tables every selection on types the asked subgraphs define can be planned |
| `Totality.ComposedPlans` | crates/g2-core/src/federation.rs:661-692 | On a composed supergraph no valid root field with defined fragments is refused: no missing owner, no missing key |
| `Federation.TargetSupplies` | crates/g2-middleware/src/graphql_federation.rs:515-527 | The picked target owns the field, has a key for the entity, and the asking subgraph supplies every field of that key |
| `Subqueries.TextValid` | crates/g2-middleware/src/graphql_federation.rs:373-512 | Every field printed for a subgraph, injected keys included, is declared by it on that type with a type that fits the selection |
| `Subqueries.TextServable` | crates/g2-middleware/src/graphql_federation.rs:373-512 | The text printed for a valid selection is valid where it is sent if and only if the subgraph defines every fragment condition in it and declares every field asked for on a root type |
| `Subqueries.FieldsValid` | crates/g2-middleware/src/graphql_federation.rs:325-512 | A sub-query and all fetches below it are valid where they are sent: declared fields, mergeable response keys, client variables only, the target's own key |
| `Subqueries.PrintedMergeable` | crates/g2-middleware/src/graphql_federation.rs:476-479 | Adding `__typename` and aliased keys keeps fields mergeable when client keys avoid the planner's names (section 5.3.2 of the GraphQL specification) |
| `Executor.RepsVarName` | crates/g2-middleware/src/graphql_federation.rs:678-684 | A name no client variable uses, the first in its series, found after at most one round per client variable |
| `Meaning.ValueOk` | crates/g2-middleware/src/graphql_federation.rs:762-896 | The central induction: a value fetched from one subgraph, with all fetches below it resolved and merged, answers every selection on it as the store does |
| `Meaning.FetchedRep` | crates/g2-middleware/src/graphql_federation.rs:902-920 | The representation built from a fetched object identifies exactly that object in the store |
| `Meaning.ForeignAnswer` | crates/g2-middleware/src/graphql_federation.rs:879-892 | A foreign field is answered by what its fetch merged, whichever fetch merged last |
| `Exec.ApplyObject` | crates/g2-middleware/src/graphql_federation.rs:855-892 | Closed form of a whole fetch tree on one object: members continue with their own fetches, then all gains, in order |
| `Refinement.Refines` | crates/g2-middleware/src/graphql_federation.rs:762-896 | The batched resolver (collect all, fetch once per child, merge serially) computes, on every value, what resolving object by object would, and reports no divergence |
| `Stability.StableFields` | crates/g2-middleware/src/graphql_federation.rs:855-860 | No merge of a planned response changes any representation collected before it, at any depth |
| `Merging.AlignAt` | crates/g2-middleware/src/graphql_federation.rs:879-892 | For any response array, short, long or with nulls: the i-th walked object gets the entity whose index is the number of representations before it, and only if it sent one |
| `Merging.MergeAt` | crates/g2-middleware/src/graphql_federation.rs:879-892 | Each walked position holds its object before the merge and that object with exactly its own entity's members after it |
| `Merging.SiblingFrame` | crates/g2-middleware/src/graphql_federation.rs:855-878 | Merging keys that a sibling's path does not go on through, and no `__typename` where it asks for one, into objects that could be represented changes neither which positions that path reaches nor their order or number, after any merges that kept both paths so far |
| `Resolver.FetchBound` | crates/g2-middleware/src/graphql_federation.rs:807-853 | A root field costs at most one fetch per plan node however much data comes back |
| `Executor.CollectMaps` | crates/g2-middleware/src/graphql_federation.rs:924-947 | Appends exactly the objects the path names: lists flattened, conditions filtered, missing keys pruned |
| `Executor.Representation` | crates/g2-middleware/src/graphql_federation.rs:902-920 | Builds the representation loop-wise: none for another type, a missing or a null key field |
| `Executor.Prepare` | crates/g2-middleware/src/graphql_federation.rs:783-803 | The compacted representations and the mask of one child over all values |
| `Executor.Deal` | crates/g2-middleware/src/graphql_federation.rs:879-892 | Handing out entities along the mask with a cursor that may run dry is the alignment specified |
| `Executor.MergeInto` | crates/g2-middleware/src/graphql_federation.rs:863-892 | Merges in place, value by value, exactly the dealt members |
| `Executor.MergeChild` | crates/g2-middleware/src/graphql_federation.rs:859-893 | One child's merge, with the length check before it |
| `Executor.FetchChild` | crates/g2-middleware/src/graphql_federation.rs:807-853 | One fetch for all representations, then the entities' own children |
| `Executor.ResolveChildren` | crates/g2-middleware/src/graphql_federation.rs:762-896 | The whole level, in place on the value array: values, problems and number of fetches are those of the specification |
| `Necessity.AliasClash` | crates/g2-middleware/src/graphql_federation.rs:476-479 | `{ u { g2__i: __typename e } }` keeps every rule but the one on client keys: its sub-query is refused and the answer is not the store's |
| `Necessity.TypenameClash` | crates/g2-middleware/src/graphql_federation.rs:383-384 | `{ u { __typename: i } }` likewise, against the added `__typename` |
| `Necessity.UnknownCondition` | crates/g2-middleware/src/graphql_federation.rs:411-432 | `{ v { ... on N { e } } }` keeps every rule but known conditions: a subgraph that does not define `N` refuses the text |
| `Necessity.AbstractCondition` | crates/g2-middleware/src/graphql_federation.rs:938-943 | `{ u { ... on N { f { e } } } }` keeps every rule but decidable conditions: the walk compares `N` with `__typename`, the entity is never fetched, `e` is null |
| `Necessity.LaterCutWins` | crates/g2-middleware/src/graphql_federation.rs:887-890 | `{ u { p { a } ... on U { p { b } } } }` keeps every rule but the one on double cuts: the later merge replaces `p` and `b` is lost |
| `Necessity.ExternalThroughInterface` | crates/g2-middleware/src/graphql_federation.rs:384-392 | `{ n { e } }` keeps every rule but the one on abstract types: `e` stays with a subgraph that only has it as external, and is null |
| `Necessity.RootBelowRoot` | crates/g2-middleware/src/graphql_federation.rs:384-392 | `{ u { q { v { i } } } }` keeps every rule but the one on root fields: another subgraph's root field is sent where it is not declared, and the text is refused |
| `Necessity.RefusedIsNull` | crates/g2-middleware/src/graphql_federation.rs:735-755 | A root field whose sub-query is refused is a field error, for every plan |
| `Necessity.TwoFetches` | crates/g2-middleware/src/graphql_federation.rs:879-892 | Two fetches at one object: the second merges over what the first brought |
| `Necessity.ObjectKeyAccepted` | crates/g2-core/src/federation.rs:334-364 | Composition accepts a key field of any type, so leaf keys are an assumption of the theorem and not something composition checks |
| `Example.Answered` | crates/g2-middleware/src/graphql_federation.rs:687-757 | A query over two subgraphs meets every hypothesis, and its answer holds the value only the second subgraph has |
| `ComposedExample.ComposedAnswer` | crates/g2-core/src/federation.rs:379-563 | Two schemas compose to that supergraph, which meets every hypothesis of the theorem about composed subgraphs |
| `Compose.ParseKeyFields` | crates/g2-core/src/federation.rs:334-364 | The flat-key rules, token by token |
| `Compose.TokensExact` | crates/g2-core/src/federation.rs:340-343 | The tokens of a key's text are exactly the non-empty pieces between its commas and white space |
| `Compose.FlatKey` | crates/g2-core/src/federation.rs:340-343 | Any non-empty list of declared flat field names is read back as that key |
| `Compose.KeyFor` | crates/g2-core/src/federation.rs:591-609 | A definition's key exactly when its first `@key` is resolvable, and then the tokens its `fields` spells; fails when that is no string or breaks the flat-key rules |
| `Compose.MergeDef` | crates/g2-core/src/federation.rs:610-647 | Merges one definition's fields; fails exactly on an unsupported directive or a disagreeing signature |
| `Compose.RecordOwners` | crates/g2-core/src/federation.rs:649-659 | Records the owners of every field; fails exactly when one is only ever external |
| `Compose.CheckKeys` | crates/g2-core/src/federation.rs:661-691 | Succeeds exactly when every definition declares the key fields of every other owner |
| `Compose.Composer.ComposeEntity` | crates/g2-core/src/federation.rs:567-692 | Succeeds exactly on the entity rules, and then the tables gain exactly this entity's owners and keys |
| `Compose.Composer.ComposeType` | crates/g2-core/src/federation.rs:485-545 | One type: kinds agree, an entity fills the tables, a value type is identical everywhere and leaves them alone |
| `Compose.ComposeRoots` | crates/g2-core/src/federation.rs:427-456 | Succeeds exactly when no root field is declared twice; the table then names each field's declaring subgraph |
| `Compose.GroupTypes` | crates/g2-core/src/federation.rs:458-470 | Groups hold every definition of every kept type, by ascending subgraph |
| `Compose.ComposeAll` | crates/g2-core/src/federation.rs:379-563 | Composition succeeds exactly on composable subgraphs and returns exactly their tables |
| `Composition.RulesExact` | crates/g2-core/src/federation.rs:485-545 | What the composer checks is the order-free rule set, over the directives: kinds, stated keys, signatures, ownership, and resolvable keys whose fields every other definition declares |
| `Composition.OwnersExact` | crates/g2-core/src/federation.rs:610-659 | An entity field's owners are, strictly ascending and non-empty, precisely the subgraphs declaring it without `@external`, and all declarations share one signature |
| `Composition.RootsExact` | crates/g2-core/src/federation.rs:427-456 | A root field has exactly one owner, the subgraph declaring it |
| `Composition.KeysExact` | crates/g2-core/src/federation.rs:591-609 | The key table over the directives: a subgraph has a key exactly when it defines the entity with a resolvable `@key`, and then the key is the list of names the directive spells, all of them its own fields |
| `Composition.OwnerMustResolve` | crates/g2-core/src/federation.rs:661-691 | Composition is refused when an owner that another definition of the entity needs has no resolvable key, or one with a field that definition lacks |
| `Composition.StrippedExact` | crates/g2-core/src/federation.rs:546-560 | Value types are the same when kind, interfaces, members, field names and signatures are: federation directives do not count |
| `Composition.OrderIndependent` | crates/g2-core/src/federation.rs:379-563 | Permuting the subgraphs changes neither success nor failure and permutes the tables |
| `Supergraph.OneType` | crates/g2-core/src/federation.rs:610-647 | Every declaration of a field gives it the composed type |
| `Supergraph.EntityReach` | crates/g2-core/src/federation.rs:661-691 | A field of an entity the subgraph defines is its own or has a reachable owner whose key fields the subgraph declares |
| `Supergraph.TargetResolves` | crates/g2-core/src/federation.rs:591-607 | Every target the planner picks owns the field, its `@key` is resolvable, and it is asked by the fields that directive spells |
| `Supergraph.CompositionSound` | crates/g2-core/src/federation.rs:649-692 | A successful composition whose printed schema validates has sound tables: every lookup and pick of the planner hits |
| `Augment.AugmentSchema` | crates/g2-core/src/federation.rs:166-215 | Adds exactly the missing definitions, the entity union and the service fields |
| `Augment.AugmentKeeps` | crates/g2-core/src/federation.rs:166-215 | No existing definition is replaced; the added entity union lists exactly the keyed object types |
| `Augment.AugmentAdds` | crates/g2-core/src/federation.rs:166-215 | Exactly what is added: missing reserved directives and types, the entity union and `_entities` when some type has a key, and `_service` |
| `Augment.AugmentIdempotent` | crates/g2-core/src/federation.rs:152-160 | Augmenting twice is augmenting once |
| `Recording.RecordingBody.PollFrame` | crates/g2-middleware/src/cache.rs:350-395 | Each poll hands the client the inner result unchanged and moves the tee as its state machine says |
| `Recording.RunExact` | crates/g2-middleware/src/cache.rs:337-404 | After any events: the buffer is within the cap, and a write was started exactly when the first terminal event was clean and the data up to it fits, with exactly that data |
| `Recording.TeeContract` | crates/g2-middleware/src/cache.rs:337-404 | At most one write; for a stream silent after its end its body is all data delivered; a clean end within the cap starts one |
| `Cache.ReadEntry` | crates/g2-middleware/src/cache.rs:251-266 | Decoding a stored entry header by header, with every failure a miss |
| `Cache.EntryTrip` | crates/g2-middleware/src/cache.rs:233-266 | Encoding then decoding returns the response with the hit mark |
| `Cache.MarkOnly` | crates/g2-middleware/src/cache.rs:263-265 | Apart from the mark, every header keeps its values in order |
| `Cache.WholeBody` | crates/g2-middleware/src/cache.rs:350-395 | A write of a faithfully polled stream carries the whole body |
| `Cache.AnswerRecords` | crates/g2-middleware/src/cache.rs:137-216 | An answer gets a recording tee exactly when its request is a GET, HEAD or OPTIONS or a GraphQL operation, its status is 2xx and no header is `set-cookie` |
| `Cache.WrittenExactly` | crates/g2-middleware/src/cache.rs:186-404 | From any state, an answer and any faithful polls of it start one write, of that answer under its key, when it is such a candidate, ends cleanly within the cap and has a body the policy allows; and otherwise none |
| `Cache.NextIsHit` | crates/g2-middleware/src/cache.rs:137-404 | The cache works: from any state, every HTTP answer and every GraphQL success that is such a candidate and streams to its clean end within the cap is, once its write is persisted, the next lookup's hit, with the mark, and nothing else changes |
| `Cache.LookupMisses` | crates/g2-middleware/src/cache.rs:157-171 | A request that may not be cached, or whose key stores nothing legible, is no hit |
| `Cache.CacheAgrees` | crates/g2-middleware/src/cache.rs:137-216 | Over every interleaving of lookups, answers, polls, writes, losses, expiry and corruption: each hit replays an earlier answer to an alike subject that was 2xx, without `Set-Cookie`, within the cap and, for GraphQL, a JSON object whose `errors` are absent, null or empty |
| `Cache.CompletionWrites` | crates/g2-middleware/src/cache.rs:350-395 | The poll that cleanly ends a recordable answer within the cap starts exactly that answer's write, under its own key |
| `Cache.PersistedHits` | crates/g2-middleware/src/cache.rs:157-177 | Once persisted, the next lookup of that subject replays the answer with the hit mark |
| `Cache.KeysExact` | crates/g2-middleware/src/cache.rs:147-155 | Two subjects share a storage key exactly when they are alike: one place (organisation and API as one text), one cache, and one request line, or one schema digest, operation name and text of query and variables; no GraphQL key is an HTTP key |
| `Cache.AlikeExact` | crates/g2-core/src/api_definition.rs:1356-1370 | For organisation ids without a colon and variables on one line, alike subjects are the same subject |
| `Cache.ColonsCoincide` | crates/g2-core/src/api_definition.rs:1356-1370 | Other ids are accepted and can coincide: organisation `a:cache:b` with API `c` shares every entry with organisation `a` and API `b:cache:c` |
| `Cache.PrefixesCoincide` | crates/g2-core/src/api_definition.rs:1358-1370 | An HTTP and a GraphQL subject share a prefix exactly when they have one place, which for colon-free ids is the HTTP cache of a version named `graphql` of the same API; their keys differ even then |
| `Base64.Trip` | crates/g2-middleware/src/cache.rs:230-243 | Decoding undoes encoding (section 4 of RFC 4648) |
| `Base64.Strict` | crates/g2-middleware/src/cache.rs:251-266 | Decoding accepts nothing but encodings: padding and unused bits included |
| `Base64.AlphabetExact` | crates/g2-middleware/src/cache.rs:230-231 | The digits are the standard alphabet (table 1 of RFC 4648) |
| `Base64.GroupExact` | crates/g2-middleware/src/cache.rs:230-231 | Three bytes are four digits of one 24-bit number, leading first (section 4 of RFC 4648) |
| `JsonText.CanonExact` | crates/g2-middleware/src/graphql_cache.rs:151-178 | Two documents have one canonical form exactly when they denote the same value, whatever the member order |
| `JsonText.PrintExact` | crates/g2-middleware/src/graphql_cache.rs:160-178 | Compact text, integers and doubles included, determines the value it was printed from, wherever it stands |
| `GraphQlCache.VariablesExact` | crates/g2-middleware/src/graphql_cache.rs:160-178 | Canonical variables are equal exactly when the variables mean the same: absent, null, `{}` and empty text coincide, other text that is not JSON stands for itself |
| `GraphQlCache.FormsAgree` | crates/g2-middleware/src/graphql_cache.rs:160-192 | The two canonicalisers agree |
| `GraphQlCache.OperationKeysExact` | crates/g2-middleware/src/graphql_cache.rs:85-98 | Two operations share a key if and only if place, schema digest and operation name agree and either query and variables agree in meaning, or one's variables are text that is not JSON and begin with a line by which the other's query extends its own, the rest being the other's canonical variables |
| `GraphQlCache.LineBreakCollides` | crates/g2-middleware/src/graphql_cache.rs:92-97 | The second case is real for every query, line and variables whose joined text is no document |
| `GraphQlCache.CommentCollides` | crates/g2-middleware/src/graphql_cache.rs:156-160 | Among operations that are received: any query with `#`, a line break and canonical variables as its variables text is malformed, and shares the entry of the same query with a trailing comment line and those variables |
| `SignatureHeader.PercentDecode` | crates/g2-middleware/src/hmac.rs:114-129 | Decodes left to right; fails on a truncated or non-hex escape |
| `SignatureHeader.ScanPairs` | crates/g2-middleware/src/hmac.rs:55-79 | The scanner: terminates because the remainder shrinks, and fills the slots as specified |
| `SignatureHeader.ParseSignatureHeader` | crates/g2-middleware/src/hmac.rs:43-110 | Scheme, scan, required parameters, default header list and signature decoding |
| `SignatureHeader.ScanPieces` | crates/g2-middleware/src/hmac.rs:55-79 | Any printed list of parameters scans to exactly those parameters in order |
| `SignatureHeader.EnterExact` | crates/g2-middleware/src/hmac.rs:69-78 | Parameters are accepted exactly when no known one repeats, and each slot then holds its value |
| `SignatureHeader.RoundTrip` | crates/g2-middleware/src/hmac.rs:43-129 | Printing in any order, with any white space, unknown parameters and percent-encoding, parses back to the same parameters |
| `SignatureHeader.AcceptedExactly` | crates/g2-middleware/src/hmac.rs:43-110 | A string is accepted exactly when it is some written header, a trailing comma and empty unknown names included, in which no known parameter repeats, key id and algorithm are present and non-empty, the header list is non-empty, and the signature unescapes and decodes |
| `SignatureHeader.RepeatsFail` | crates/g2-middleware/src/hmac.rs:76-78 | A repeated known parameter makes any well-formed header fail |
| `SigningString.BuildSigningString` | crates/g2-middleware/src/hmac.rs:143-166 | The lines for the signed names; none when a header is absent or no text |
| `SigningString.SigningExact` | crates/g2-middleware/src/hmac.rs:143-166 | Equal signing strings have the same names, method up to case, target, and trimmed, joined value per header |
| `SigningString.TargetLine` | crates/g2-middleware/src/hmac.rs:150-153 | The request line: method in lower case, a space, the target as received |
| `SigningString.LineAdded` | crates/g2-middleware/src/hmac.rs:149-165 | One more name is one more line, and fails when its own line does |
| `SigningString.ValueAdded` | crates/g2-middleware/src/hmac.rs:154-163 | Other headers change nothing; a further value of the header is appended, trimmed, after a comma and a space; the first makes the line `name: value`; one that is no text makes the header unsignable |
| `Admission.AdminStore.Create` | crates/g2-admin/src/keys.rs:87-114 | A valid session is stored under its organisation and key hash, an invalid one is refused and stores nothing; the store stays what its history leaves |
| `Admission.AdminStore.Put` | crates/g2-admin/src/keys.rs:154-176 | Creates or replaces, and says which; the store stays what its history leaves |
| `Admission.AdminStore.Delete` | crates/g2-admin/src/keys.rs:222-234 | Removes exactly the addressed record; the store stays what its history leaves |
| `Admission.AdminStore.ListKeys` | crates/g2-admin/src/keys.rs:124-143 | Exactly the organisation's key hashes, strictly ascending |
| `Admission.AdminStore.CreatePolicyRecord` | crates/g2-admin/src/resources.rs:177-208 | Never overwrites an existing policy |
| `Admission.AdminStore.PutPolicyRecord` | crates/g2-admin/src/resources.rs:214-239 | Stores a policy only under its own id |
| `Admission.FetchActivePolicy` | crates/g2-middleware/src/auth.rs:883-923 | Only a readable, correctly filed and active policy; misfiled and missing ones are told apart |
| `Admission.ResolvePolicy` | crates/g2-middleware/src/auth.rs:848-872 | The effective session; none for an unusable or second policy |
| `Admission.AuthenticateStoredToken` | crates/g2-middleware/src/auth.rs:799-837 | Admitted exactly when the stored session is live and its effective access covers the API; a refusal is a 500 exactly when a record that had to be read is unsound, and a 403 otherwise |
| `Admission.BasicTrip` | crates/g2-middleware/src/auth.rs:1145-1169 | Basic credentials are read back from their header: any colon-free user name, any password, any case of the scheme |
| `Admission.BasicExact` | crates/g2-middleware/src/auth.rs:1145-1169 | Exactly which headers carry which credentials: the scheme in any case, then the encoding of a text whose first colon ends a non-empty user name |
| `Admission.AuthenticateBasic` | crates/g2-middleware/src/auth.rs:582-664 | Unreadable credentials are a 401; otherwise the same decision plus the password check against the session's own hash |
| `Admission.FindAlgorithm` | crates/g2-middleware/src/auth.rs:687-699 | The allowed algorithm at the first index whose name matches ignoring case; none exactly when no name matches |
| `Admission.AuthenticateHmac` | crates/g2-middleware/src/auth.rs:672-796 | An unparseable header is a 401; a disallowed algorithm, an unsigned, missing or stale date or an unsigned header is a 403 before any key is read; otherwise the same decision plus the signature check of the rebuilt signing string under the session's own secret |
| `Admission.StoreIsHistory` | crates/g2-admin/src/keys.rs:87-234 | The store holds, per organisation and hash, exactly what the last write left |
| `Admission.RecordsFiled` | crates/g2-admin/src/keys.rs:87-234 | Every reachable session carries the organisation of its key and at most one policy |
| `Admission.AdmissionExact` | crates/g2-middleware/src/auth.rs:582-923 | Over every sequential history of key and policy writes: admitted exactly when the credential check passes and the last writes grant it, with the last session in which a policy replaces rate, quota and access and nothing else; every refusal of a stored credential is then a 403 |
| `Admission.AdminStore.AdmitToken` | crates/g2-middleware/src/auth.rs:799-837 | After any history of admin writes, a token is admitted exactly when the last writes grant it |
| `Admission.AdminStore.AdmitBasic` | crates/g2-middleware/src/auth.rs:582-664 | The same for basic credentials: readable, the password checked against the hash last written, and granted |
| `Admission.AdminStore.AdmitHmac` | crates/g2-middleware/src/auth.rs:672-796 | The same for signatures: parsed, acceptable, signed under the secret last written, and granted |
| `Definitions.Apply` | crates/g2-core/src/versioning.rs:271-339 | Exactly one definition serves a version, and Apply returns it: the same API without versions in which every override wins and every other setting, looked up by name, is the base's; none for an unconfigured version |
| `Definitions.AppliedOnce` | crates/g2-core/src/versioning.rs:271-339 | What serves an already served definition under the same overrides is that definition and no other |
| `Definitions.Validate` | crates/g2-core/src/api_definition.rs:1401-1519 | Accepts exactly what the checks let through, whatever the block validators report, and reports another error exactly when a block is the first to fail with one |
| `Definitions.ValidateVersions` | crates/g2-core/src/versioning.rs:205-265 | Accepts exactly sound version sets whose effective definitions pass or fail otherwise than by the definition error; ends because an effective definition has no versions |
| `Definitions.NothingLost` | crates/g2-core/src/versioning.rs:258-263 | When every validator reports the definition error, validation is sound and complete, and every version of an accepted base has an effective definition that is itself accepted |
| `Definitions.LossExact` | crates/g2-core/src/versioning.rs:258-263 | An accepted definition is invalid exactly when some version's effective definition fails otherwise than by the definition error |
| `Definitions.FailureLost` | crates/g2-core/src/versioning.rs:258-263 | Such a failure is lost: the base is accepted though its version is broken |
| `Definitions.CheckConflicts` | crates/g2-core/src/loader.rs:114-132 | Accepts exactly sets with distinct ids and distinct paths after trimming trailing slashes |
| `Definitions.MergeSources` | crates/g2-core/src/loader.rs:77-111 | Succeeds exactly without conflicts and returns the id-ordered permutation of both inputs |
| `Definitions.MergeDeterministic` | crates/g2-core/src/loader.rs:77-111 | Reordering or redistributing the inputs changes neither success nor result |
| `Definitions.AllSlashesDropped` | crates/g2-core/src/loader.rs:75-98 | Two paths compare alike exactly when they differ in trailing slashes only, in any number of them |

## Left out

- HTTP, async and tracing plumbing, and error wording: fetches are calls to a
  subgraph function, concurrent sibling fetches are independent of each other,
  and errors are kinds without text.
- Parsing and validating GraphQL text, introspection and the engine's record
  pass: schemas and documents are taken as parsed, and the final validation of
  a composed schema appears as the assumption that implementing types keep
  interface fields with narrower types.
- `@skip` and `@include`, argument coercion and nullability propagation: the
  store's values are taken as they are, and a null stays where it is.
- Mutations and their side effects: the planner and resolver are the same, the
  theorem is stated for queries.
- Updating JSON through mutable references: a merge rebuilds the value it
  changes. The array of values is updated in place; aliasing inside one JSON
  value is not modelled.
- Member order of JSON objects in responses, which carries no meaning.
- Owner tables are keyed by (type, field) pairs instead of `Type.field` text.
- Printed text is a sequence of tokens; an argument list and a directive are
  one token each. The wrapper of an operation (keyword, variable definitions)
  is a record.
- Printing the composed schema text, descriptions and directive stripping
  beyond what comparison of value types needs.
- SHA-256, HMAC and bcrypt: a collision-free digest of fixed length, or a
  Boolean answer. JWT, JWKS, OIDC and mutual TLS modes.
- Parsing the `Date` header and reading bytes as UTF-8: the date in seconds and
  the text are inputs.
- Storage failures in admission: every read answers. Concurrent creation of
  one policy id.
- Reading JSON text and printing doubles: a parsed document is an input, and a
  double is the text that identifies it.
- UTF-8 validity in percent decoding: text outside ASCII is refused by the
  base64 decoding that follows.
- Block validators of API definitions (headers, regexes, templates, TLS): each
  is a function that may report an error.
- Rate limiting, circuit breaking, health checks, subscriptions, the dashboard
  and storage backends.
- Convergence.ConvergesExactly: replies that bring keys nobody asked for, which
  a GraphQL server's do not.
- Conformance.NeverDiverges: for replies in the shape of their requests the
  condition on the query is sufficient; each half is shown to matter by one
  query, and the exact condition is the one on plans, for replies of any shape
  below the asked keys.
- GraphQlCache.LineBreakCollides: whether a text parses as JSON is an input, so
  the lines that make the joined text a document again are not singled out.
