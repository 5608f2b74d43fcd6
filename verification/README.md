# Verified model of the knowledge-graph backend

A Dafny model of a service in which many users share one knowledge graph, and in which research
agents, a chat assistant and schema migrations act on it. It covers five protocols:

- **The shared graph and its visibility protocol.** Entities and `RELATED_TO` edges each have an
  owner and a private/public flag; users create, link, delete and change visibility, singly or by a
  cascade over the sub-graph they own. `KnowledgeGraph` has one function per Cypher file,
  `GraphService` the store and the requests as methods, `VisibilityChange` the two transactions,
  `GraphInvariants` what always holds, `VisibilityLaws`, `Sources` and `GraphRuns` what follows.
- **The agent run.** Research with bounded retries (`ResearchNodes`, `ResearchRun`,
  `ResearchLaws`, `ResearchEffects`), drafts committed one write at a time with every write recorded
  (`CommitNodes`, `CommitLaws`, `EnrichLaws`, `CommitEffects`), the jobs as wholes, what they leave
  behind and how they end (`AgentRuns`, `RunRecords`, `RunEndings`), the same call by call
  (`ResearchTrace`, `CommitTrace`), the worker that carries them out (`AgentWorker`), the requests
  (`RunService`), and a run's life under every interleaving (`RunLifecycle`, `LifecycleLedger`,
  `LifecycleJobs`, `ApprovedRuns`).
- **Server-sent events.** The printer and the incremental parser (`ServerSentEvents`).
- **Graph migrations.** Auto-committed schema files, transactional data files, and the record of
  what ran, with deaths anywhere (`SchemaStatements`, `GraphMigrations`, `MigrationLaws`), against
  the plain reading of the files (`MigrationSteps`).
- **The chat tool loop.** Rounds of tool calls and their results (`ChatTools`, `ChatLaws`).

Models, searches, stores that raise, deadlines and the death of a worker are oracles: functions
from the number of the call to an answer or a fault, quantified over in every theorem. A fault of a
store or a queue (`Faults`) falls before the effect of its call or after it. An exception is a
`Signal` that a node returns, so that "best effort" code can catch it and nothing else.

A method that follows the source's loop is proved equal to a function on values; the laws are then
about that function. What the functions mean is stated once more without them, in fields, order and
literal limits: `ReachableGraphsInFull` and the store's contracts for the graph, `ResearchEffects`,
`CommitEffects` and `RunEndings` for a run, `MigrationSteps` for the files, `FrameExactly` for a frame.
`dafny verify dfyconfig.toml` checks everything.

## Where a promise needs a condition

- **Reviews.** `submit_review` reads the status and writes later, and the UPDATE does not look at
  the status again (backend/app/agent/service.py:142-156). Nothing is written to the graph before
  an approval in any case. Committing at most once, a cancelled run having written nothing, and
  terminal states being final hold exactly if a review is one atomic step and a job is taken once:
  `RunLifecycle.OnceExactlyWhenSafe`, `CancelExactlyWhenSafe` and `FinalExactlyWhenSafe`. Two
  concurrent reviewers suffice otherwise: approve twice, or approve and then cancel.
- **The id columns after a failure.** backend/app/agent/sql/append_committed_entity.sql calls its
  column the accurate record of partial progress, and mark_failed.sql means to keep whatever was
  committed. But it overwrites the appended lists with the driver's, which lack the writes of the
  node in flight. So once it is written the columns are exact exactly if that node had made no
  entity and no edge since it began. On success they are exact, and where no last write was made
  they miss at most the one write in flight (`RunRecords.DirectRunRecorded`,
  `RunRecords.ResumedRunRecorded`). `RunRecords.FailureErasesRecord` is a run that loses an append
  which had landed.
- **Restarting a schema file.** Schema statements are auto-committed, so a file can be half applied.
  Running it again is harmless exactly when the first statement on each name has its
  `IF [NOT] EXISTS` (`MigrationLaws.HarmlessExactlyWhenGuarded`). The files in the repository do.
- **Public after private.** Not an undo; `VisibilityLaws.PublicAfterPrivate` says when it is.
- **Event names.** `parseFrame` trims what follows `event:`, so a name with blanks at its ends or a
  newline inside does not come back (`ServerSentEvents.RoundTrip`, both directions). The parser
  also keeps only the last `data:` line of a frame, where the HTML Living Standard (section 9.2.6)
  joins them; the printer writes one.
- **Structure and critique** run equally often, but for one structure visit more exactly when a
  failure stopped the run right after it (`ResearchLaws.RunBounds`).
- **Runs, jobs and launch parts of a chat turn** are equal in number exactly if the turn did not end
  at a call whose insert took effect. A launch that raises after that leaves a run which no part
  reports, with its job if the enqueueing took effect and without if not
  (`ChatLaws.CountsAgreeExactly`). A call whose arguments are no object raises as well, whichever of
  the two tools it is for.

## Model

| member | source | states |
|---|---|---|
| `GraphRuns.ReachableGraphsAreSound` | backend/app/graph/service.py:81-310 | Every graph any users' creates, links, deletes, attachments and visibility changes can reach: no dangling edge, no edge wider than its endpoints, every edge's owner sees both endpoints and owns one; one Source a url, one SOURCED_FROM a pair, mirroring its entity's visibility |
| `GraphRuns.ReachableGraphsInFull` | backend/app/graph/service.py:81-310 | The same in owners, visibilities and endpoints alone: in every reachable graph an edge has both ends, one of them owned by the edge's owner and each public or that owner's, a public edge has public ends; sources and citations are unique and citations as visible as their entity |
| `GraphRuns.StepKeepsInv` | backend/app/graph/service.py:246-299 | One request, whatever it is, keeps all of those invariants |
| `GraphRuns.StepKeepsIdentity` | backend/app/graph/service.py:81-310 | No request changes anything but the visibility of an entity or edge that survives it: ownership, endpoints, kind and attributes are for good |
| `GraphRuns.PrivateStepInvisible` | backend/app/graph/service.py:213-222 | On a sound graph, a request that acts in private (creating, linking or attaching privately, deleting or re-hiding a private entity, unlinking one's private edges) leaves list_graph of every other user as it was |
| `GraphRuns.PrivateRunInvisible` | backend/app/graph/cypher/list_visible_relationships.cypher:4-8 | So does any sequence of such requests |
| `GraphRuns.DeletePrivateInvisible` | backend/app/graph/cypher/delete_entity.cypher:5-8 | The delete case: an edge of another user cannot hang on a private entity, so detaching takes nothing of theirs |
| `OwnedComponent.ComponentIsLeastClosedSet` | backend/app/graph/cypher/owned_neighbours.cypher:9-13 | The entities reachable by hops are the least set that holds the start and is closed under one owned_neighbours hop |
| `OwnedComponent.ComponentFollowsEdges` | backend/app/graph/cypher/owned_neighbours.cypher:7-13 | From an owned start the component is the least set that holds the start and, with either end of an edge the caller owns between two of their own entities, the other; directions of edges do not matter |
| `OwnedComponent.MembersAreLinked` | backend/app/graph/cypher/owned_neighbours.cypher:9-13 | Every other member hangs on another member by an edge the caller owns |
| `OwnedComponent.ComponentIsOwned` | backend/app/graph/cypher/owned_neighbours.cypher:7-13 | From an owned start the walk never leaves the caller's entities |
| `GraphService.GraphStore.OwnedComponent` | backend/app/graph/service.py:234-243 | The breadth-first loop ends on every graph, cyclic ones included, and returns exactly the reachable entities |
| `GraphService.GraphStore.CreateEntity` | backend/app/graph/service.py:81-92 | Adds the entity, or on a taken id changes nothing |
| `GraphService.GraphStore.CreateRelationship` | backend/app/graph/service.py:120-153 | Adds exactly the requested edge if and only if the guard holds; otherwise 422 if and only if the endpoints are linkable, the edge public and an endpoint private, and 404 in all other cases |
| `GraphService.GraphStore.DeleteEntity` | backend/app/graph/service.py:156-159 | Detach-deletes an owned entity with its edges and citations, or reports 404 and changes nothing |
| `GraphService.GraphStore.DeleteRelationship` | backend/app/graph/cypher/delete_relationship.cypher:4-8 | Deletes the edges with that id the caller may delete; found exactly if there was one |
| `GraphService.GraphStore.AttachSources` | backend/app/graph/cypher/attach_sources.cypher:14-19 | The MERGE loop over the urls, on an owned entity only |
| `GraphService.GraphStore.SetEntityVisibility` | backend/app/graph/cypher/set_entity_visibility.cypher:1-9 | Sets the visibility of an owned entity and says whether it changed |
| `GraphService.GraphStore.FlipEntities` | backend/app/graph/cypher/flip_entities.cypher:6-9 | Flips the caller's entities in the set and returns exactly the changed ids |
| `GraphService.GraphStore.FlipRelationships` | backend/app/graph/cypher/flip_relationships.cypher:6-10 | Flips the caller's edges with both endpoints in the set |
| `GraphService.GraphStore.SyncSources` | backend/app/graph/cypher/sync_entity_sources.cypher:9-11 | Mirrors the visibility of the caller's entities in the set onto their citations; an empty set does nothing |
| `GraphService.GraphStore.DemoteOwnedEdges` | backend/app/graph/cypher/demote_owned_edges.cypher:6-9 | Makes the caller's public edges on the set private |
| `GraphService.GraphStore.RemoveForeignEdges` | backend/app/graph/cypher/remove_foreign_edges.cypher:7-10 | Deletes everybody else's edges on the set |
| `GraphService.GraphStore.MergeSourceNode` | backend/app/graph/cypher/attach_sources.cypher:16-17 | MERGE on a url finds its one Source node or creates it, and keeps the invariants |
| `GraphService.GraphStore.MergeCiteEdge` | backend/app/graph/cypher/attach_sources.cypher:18-19 | MERGE on the pair finds or creates the SOURCED_FROM edge and sets its visibility to the entity's |
| `GraphService.GraphStore.SingleVisibility` | backend/app/graph/service.py:263-277 | The single transaction: set, mirror on a change, clean up when going private even without a change; 404 without a change of the graph |
| `GraphService.GraphStore.CascadeVisibility` | backend/app/graph/service.py:280-299 | The cascading transaction: walk, flip entities, flip edges, mirror, clean up; reports the flipped ids |
| `GraphService.GraphStore.ChangeVisibility` | backend/app/graph/service.py:302-310 | The request: the cascade or the single transaction |
| `GraphService.GraphStore.Serve` | backend/app/graph/service.py:81-310 | Any writing request acts as the step that the runs are made of, and keeps the invariants |
| `GraphService.GraphStore.ListGraph` | backend/app/graph/service.py:213-222 | The caller's view, entity by entity with its sources, and edge by edge; with sound edges its relationships are just those public or the caller's own |
| `VisibilityChange.SingleMeaning` | backend/app/graph/service.py:263-277 | On a sound graph the single transaction equals one simultaneous assignment of entities, edges and citations over the entity |
| `VisibilityChange.CascadeMeaning` | backend/app/graph/service.py:280-299 | So does the cascade over the component; flipping inside edges before the clean-up does not matter |
| `VisibilityLaws.ChangeEffect` | backend/app/graph/service.py:263-299 | A change fails exactly for non-owners and then does nothing; else everything in scope is at v, going private leaves no public and no foreign edge on the scope, no edge of the caller is ever removed, going public changes no edge but a cascade's own inside the scope, citations follow their entity, what does not touch the scope is untouched, and affected ids are exactly the entities whose visibility differs |
| `VisibilityLaws.ChangeKeepsInv` | backend/app/graph/service.py:246-299 | Both forms of change keep the invariants |
| `VisibilityLaws.ComponentStable` | backend/app/graph/cypher/owned_neighbours.cypher:9-13 | No visibility change by anyone alters the owned component of any user from any of their entities |
| `VisibilityLaws.CascadeAbsorbs` | backend/app/graph/service.py:280-299 | A cascade to private after a cascade to public from the same entity is the cascade to private alone; a repeated cascade is one |
| `VisibilityLaws.CascadeIdempotent` | backend/app/graph/service.py:280-299 | The repeated cascade changes nothing and reports no ids |
| `VisibilityLaws.PublicAfterPrivate` | backend/app/graph/service.py:246-251 | Public after private is public alone exactly when every edge on the component is the caller's and inside it or private |
| `VisibilityLaws.EdgeFilterIsLastConjunct` | backend/app/graph/cypher/list_visible_relationships.cypher:5-7 | On a sound graph the three-part read filter equals its last part |
| `VisibilityLaws.PrivateAgainIsNoChange` | backend/app/graph/service.py:263-277 | Making a private entity private again runs the clean-up and changes nothing |
| `Sources.AttachSourcesFacts` | backend/app/graph/cypher/attach_sources.cypher:14-19 | Attaching keeps the invariants, adds exactly one fact a distinct url at the entity's visibility, and touches no entity or RELATED_TO edge |
| `Sources.AttachOrderIrrelevant` | backend/app/graph/cypher/attach_sources.cypher:15-19 | Order and duplicates of the urls do not matter to what is cited |
| `Sources.AttachIdempotent` | backend/app/graph/cypher/attach_sources.cypher:16-19 | Attaching twice is attaching once, node and edge ids included |
| `ResearchRun.StaysOnTrack` | backend/app/agent/graph.py:71-122 | Every routed step lowers stage, retries left, or position within a retry cycle: the loop ends |
| `ResearchEffects.RunIsRouted` | backend/app/agent/graph.py:71-122 | A research phase starts with a plan on a blank state, each visit makes the next state, and each next node is the one that state calls for: broaden exactly without hits and below the retries, structure again exactly with a critique and not above them |
| `ResearchEffects.PlanVisit` | backend/app/agent/nodes/plan.py:16-25 | Plan and survey set their own keys and change no other |
| `ResearchEffects.SearchVisit` | backend/app/agent/nodes/search.py:68-104 | Search replaces the hits; its notes are one a failed query, in order, and one an unsafe url, none left out below the cap, and no other; without a plan it finds nothing, without a tool it also gives up retrying |
| `ResearchEffects.BroadenVisit` | backend/app/agent/nodes/search.py:107-138 | Broadening counts itself, replaces only the plan's queries, and says whether it worked |
| `ResearchEffects.FetchVisit` | backend/app/agent/nodes/search.py:141-154 | The documents are the pages that came, in the order of the hits, and every other hit has its note, in order |
| `ResearchEffects.AnalyzeVisit` | backend/app/agent/nodes/analyze.py:25-46 | The fan-out adds to the source notes what was read, in the order of the documents, and changes nothing else |
| `ResearchEffects.SynthesizeVisit` | backend/app/agent/nodes/analyze.py:49-61 | The analysis is the model's, or says that no sources were analysed exactly if there are no notes |
| `ResearchEffects.StructureVisit` | backend/app/agent/nodes/structure.py:23-88 | The model's drafts, each linked to the last surveyed entity of its name and kind if it has no id, with exactly those of their edges that name a draft or an id, in order; and one note with the number dropped, if any |
| `ResearchEffects.CritiqueVisit` | backend/app/agent/nodes/structure.py:97-122 | Critique counts itself; it leaves a critique and its note exactly if there are drafts and the verdict is to revise |
| `ResearchEffects.LookupVisit` | backend/app/agent/nodes/lookup.py:56-122 | Up to the cap each draft gets the first 600 characters of its article's summary, or its failure note; the added edges are exactly those to the last draft of a related name, from another draft and not there before; past the cap nothing changes but one note |
| `ResearchLaws.RunBounds` | backend/app/agent/graph.py:71-122 | For any answers and any failure: search at most R+1 times, broaden_queries at most R, structure and critique at most C+1 each; structure and critique equally often, but for one structure more exactly when it was the last visit of a run that a failure stopped; without a failure lookup comes last |
| `ResearchLaws.ReachesLookup` | backend/app/agent/graph.py:104-122 | Without a failure the research phase ends with lookup |
| `ResearchLaws.NotesOnlyGrow` | backend/app/agent/nodes/search.py:68-154 | Across a whole research phase each state's skipped list extends every earlier one |
| `ResearchLaws.ShadowAgrees` | backend/app/agent/tasks.py:86-95 | The driver's dict.update copy ends equal to the engine's reduced state on every key but source_notes |
| `ResearchLaws.ResearchCommitsNothing` | backend/app/agent/tasks.py:89-95 | Research writes only progress to the row, and even its failures report nothing as committed |
| `ResearchNodes.SearchNode` | backend/app/agent/nodes/search.py:68-104 | The nested loops compute the specified hits and notes |
| `ResearchNodes.SearchHits` | backend/app/agent/nodes/search.py:68-104 | The hits are the first distinct safe urls in result order, at most the cap, and below the cap none is missed |
| `ResearchNodes.FetchAccounts` | backend/app/agent/nodes/search.py:141-154 | Every hit becomes a document or leaves its note |
| `ResearchNodes.DedupeExact` | backend/app/agent/nodes/structure.py:23-35 | Exactly the unlinked drafts whose lower-cased name and kind the survey has are linked, to the last such entity; nothing else changes |
| `ResearchLaws.PruneIsExact` | backend/app/agent/nodes/structure.py:38-56 | Pruning keeps exactly the edges whose references commit can resolve |
| `ResearchNodes.LookupNode` | backend/app/agent/nodes/lookup.py:87-122 | The loop computes the specified entities, edges and notes |
| `ResearchLaws.LookupExtends` | backend/app/agent/nodes/lookup.py:56-122 | Lookup changes attributes only, keeps every edge, and adds only new edges between drafted entities |
| `ResearchLaws.DraftsResolvable` | backend/app/agent/nodes/structure.py:59-88 | After any research phase every drafted edge resolves at both ends |
| `CommitLaws.CommitEntityLaw` | backend/app/agent/nodes/commit.py:65-96 | One draft: linked to what it names, or created private for the owner, recorded and noted in step; on any failure the row misses at most the one write in flight |
| `CommitLaws.CommitEntitiesDone` | backend/app/agent/nodes/commit.py:65-96 | When the entities go through, every draft is linked or new, and the id map is the drafts' ids with later ones overriding |
| `CommitLaws.MakeLinkLaw` | backend/app/agent/nodes/commit.py:109-122 | One edge: private, owned and recorded exactly if the owner may link there, otherwise one note |
| `CommitLaws.SameIdsExactly` | backend/app/agent/tasks.py:64-68 | Two logs, one a prefix of the other, give the same id lists exactly if no entity or edge was made in between |
| `CommitLaws.CommitRelationshipsDone` | backend/app/agent/nodes/commit.py:99-123 | When the edges go through, each is in the graph exactly if it resolves and the owner may link its ends, and else left exactly its own note |
| `EnrichLaws.CommitNodeSafe` | backend/app/agent/nodes/commit.py:126-139 | However commit_node ends, the graph moved by private acts of the owner only and the row lists all writes or misses the one in flight; if it returns, row, working lists and writes agree and notes only grew |
| `EnrichLaws.CommitNodeDone` | backend/app/agent/nodes/commit.py:126-139 | A commit_node that returns has linked or privately created each draft entity and committed each draft edge that resolves to ends the owner may link, read off owners and visibilities, and left every other its one note; what it passes to enrich are exactly the new entities |
| `CommitEffects.CommitOnlyAdds` | backend/app/agent/nodes/commit.py:65-139 | Wherever commit or enrich stops, every entity, edge and citation that was in the graph is still there, unchanged |
| `CommitEffects.NewEntityCites` | backend/app/agent/nodes/commit.py:42-96 | The notes of a new entity are exactly those of its best-effort calls that raised, and without the attach note it cites every url |
| `CommitEffects.CommittedEntitiesCite` | backend/app/agent/nodes/commit.py:126-139 | After a commit_node that returns, every entity it made cites every document of the run, or has the note that attaching failed |
| `EnrichLaws.LastDraftWins` | backend/app/agent/nodes/commit.py:77-90 | Of drafts with one temp_id, references resolve to the last |
| `EnrichLaws.UnresolvedExactly` | backend/app/agent/nodes/commit.py:26-32 | An edge is skipped as unresolved exactly when one of its references names no draft and is no id |
| `EnrichLaws.EnrichNodeSafe` | backend/app/agent/nodes/enrich.py:61-86 | The same promises for enrich_node, with any failure at any call |
| `EnrichLaws.LinksAreForeign` | backend/app/agent/nodes/enrich.py:29-58 | A proposed link always reads back to an entity the search found and the run did not create, so UUID() never raises there |
| `CommitEffects.LinksExactly` | backend/app/agent/nodes/enrich.py:29-58 | With no call failing the links are exactly the proposals, in order, whose target is one of the first five entities found that the run did not create; with no such entity there are none |
| `CommitEffects.EnrichNodeDone` | backend/app/agent/nodes/enrich.py:61-86 | An enrich_node that returns has asked for every new entity in turn, each where the calls of the one before end, and every link is in the graph, from the new entity to its target, or has its one note; nothing else is recorded |
| `AgentRuns.ReviewChangesNothing` | backend/app/agent/tasks.py:76-134 | Parking a run and approving it unedited makes the same graph writes and ends with the same status, error, id lists and, on success, result as running straight through, given the same answers and failures |
| `AgentRuns.CommitPhasesAgree` | backend/app/agent/tasks.py:126-134 | From states that agree on the keys commit_node and enrich_node read, the in-graph and the resumed commit phase do the same |
| `AgentRuns.ResumeRestores` | backend/app/agent/service.py:207-215 | What was parked and loaded again agrees with what research left on those keys |
| `AgentRuns.DirectWritesArePrefix` | backend/app/agent/tasks.py:89-95 | If a progress write that only the direct run makes fails, its graph writes are still a prefix of the resumed run's, and all of them unless it is the one after commit |
| `RunRecords.DirectRunRecorded` | backend/app/agent/tasks.py:36-73 | run_agent, failing anywhere: the id columns are a prefix of the ids written and exact on success; overwritten by mark_failed they are exact exactly if the node in flight had made no entity or edge since it began; otherwise they miss at most one write |
| `RunRecords.ResumedRunRecorded` | backend/app/agent/tasks.py:110-134 | The same for commit_agent_run on any parked row, edited or not |
| `RunEndings.CommitParkedHeard` | backend/app/agent/tasks.py:36-54 | The commit phase is timed out, or dead, exactly if the last call it made met the deadline, or its death; no earlier call did |
| `RunEndings.ResumedRunEnds` | backend/app/agent/tasks.py:110-134 | commit_agent_run in full: succeeded exactly if its calls came to the end, with the counts and ids of what was written; failed with the deadline exactly if a call met it; failed with the exception if one raised; still running, with the appends, if it died or its last write did not take effect |
| `RunEndings.SucceededRunIsSettled` | backend/app/agent/tasks.py:110-134 | A succeeded job has settled every draft of the row and every proposed link; its id lists and notes are exactly theirs |
| `RunEndings.HealthyResumedRunSucceeds` | backend/app/agent/tasks.py:110-134 | If no call fails and ids are fresh, the job succeeds |
| `RunEndings.ResearchEnds` | backend/app/agent/tasks.py:76-97 | The row after research: running, at lookup, with the plan as first made however it was broadened; a phase that stopped did so at its last visit or its last progress write, for the reason that one had |
| `RunEndings.DirectRunEnds` | backend/app/agent/tasks.py:76-107 | run_agent without review, likewise, from a row that only progress writes have touched |
| `RunEndings.HealthyDirectRunSucceeds` | backend/app/agent/tasks.py:76-107 | If nothing fails it succeeds |
| `RunEndings.ReviewedRunEnds` | backend/app/agent/tasks.py:98-106 | run_agent with review parks exactly the drafts, analysis, notes and document urls of its research, with counts of zero, or fails for the reason research stopped |
| `RunEndings.UnstartedRunsEnd` | backend/app/agent/tasks.py:76-81 | If the first store call fails, run_agent has done nothing but perhaps mark the row running, and commit_agent_run nothing at all |
| `RunRecords.FailureErasesRecord` | backend/app/agent/sql/mark_failed.sql:3-9 | A run whose first entity was created and recorded: the deadline strikes and mark_failed empties the column |
| `RunRecords.DirectNotesGrow` | backend/app/agent/nodes/commit.py:126-139 | Over a whole run without review, plan to enrich, each state's notes extend every earlier one |
| `RunRecords.ParkedNotesGrow` | backend/app/agent/tasks.py:101-125 | So do they across parking, any approval, edited or not, and the commit phase |
| `RunRecords.DirectRunInvisible` | backend/app/agent/nodes/commit.py:1-8 | Whatever a direct run writes, no other user's view of the graph changes |
| `RunRecords.ResumedRunInvisible` | backend/app/agent/nodes/commit.py:1-8 | Nor by what a resumed run writes |
| `RunRecords.UneditedDraftsResolve` | backend/app/agent/nodes/commit.py:99-109 | For unedited drafts, in a run without review or parked and approved as they stand, the unresolved-endpoint note never occurs, whatever the model and the wiki answered |
| `AgentWorker.Worker.CommitEntities` | backend/app/agent/nodes/commit.py:65-96 | The loop over the store and the row does what the specification says, failures included |
| `AgentWorker.Worker.CommitRelationships` | backend/app/agent/nodes/commit.py:99-123 | Likewise for the edges |
| `AgentWorker.Worker.CommitNode` | backend/app/agent/nodes/commit.py:126-139 | Likewise for the node |
| `AgentWorker.Worker.EnrichNode` | backend/app/agent/nodes/enrich.py:61-86 | Likewise for enrich's nested loops |
| `AgentWorker.Worker.Research` | backend/app/agent/tasks.py:89-97 | The streamed drive: the loop over visits and updates, its copy of the state and the row's progress |
| `AgentWorker.Worker.RunAgent` | backend/app/agent/tasks.py:76-107 | The job with and without review, from mark_running to its last write |
| `AgentWorker.Worker.RunCommit` | backend/app/agent/tasks.py:110-134 | The resumed job |
| `RunLifecycle.NoWriteBeforeApproval` | backend/app/agent/service.py:138-158 | Under every interleaving of gateway, queue, workers and reviewers, races and redeliveries included, the graph is untouched until an approval is written |
| `RunLifecycle.CommittedAtMostOnce` | backend/app/agent/service.py:138-173 | If a review is one step and a job is taken once: at most one approval, at most one commit, of exactly the stored drafts, and a cancelled run wrote nothing |
| `RunLifecycle.TerminalAbsorbs` | backend/app/agent/tasks.py:36-73 | Under the same two promises succeeded, failed and cancelled are final: no later step changes the row or the graph |
| `RunLifecycle.OnceExactlyWhenSafe` | backend/app/agent/service.py:142-156 | Commit-at-most-once holds exactly under the two promises: without either there is a run that commits twice |
| `RunLifecycle.CancelExactlyWhenSafe` | backend/app/agent/sql/mark_cancelled.sql:3-4 | A cancelled run has written nothing exactly under the two promises |
| `RunLifecycle.FinalExactlyWhenSafe` | backend/app/agent/sql/approve_review.sql:3-5 | The terminal states are final exactly under the two promises |
| `LifecycleLedger.NothingIsLost` | backend/app/agent/service.py:94-173 | Under every interleaving, whatever is promised: each insert, run job, review, approval and commit job is still at its point, has gone on to the next, or died there; what is loaded and written is what the commit jobs took and wrote, in order |
| `ResearchTrace.ResearchMarked` | backend/app/agent/tasks.py:89-95 | A research phase writes its progress update by update: the marks that took effect are the nodes of the streamed updates in streaming order, all of them but for a last one that failed, and make the very row |
| `LifecycleJobs.ResearchJobIsSteps` | backend/app/agent/tasks.py:76-107 | Every run_agent with review, once marked running, is a run of the lifecycle's steps: one a progress write, in streaming order, and one for how it ends; to the very row, leaving the graph alone |
| `LifecycleJobs.UnstartedJobIsSteps` | backend/app/agent/tasks.py:80-81 | One whose first write fails ends there, before the mark or after it |
| `CommitTrace.CommitParkedTrace` | backend/app/agent/nodes/commit.py:65-123 | The commit phase as entries of single calls that replay to the very world; from a fresh record on, at every moment the row misses at most the one write in flight, and every write is a private act of the owner where it is made |
| `LifecycleJobs.CommitJobIsSteps` | backend/app/agent/tasks.py:110-134 | Every commit_agent_run is a run of the worker's steps, each write and each append its own, to the very row, graph and writes; on a fresh run, wherever the steps are cut before the last, the row misses at most one write |
| `ApprovedRuns.ApprovedRunEndsAsItsJob` | backend/app/agent/service.py:138-173 | With atomic reviews and single delivery: from a queued commit job on, whatever anybody else tries between the job's steps, the row misses at most one write until its last step, and the final row, graph and writes are those of that one commit_agent_run on the one list of stored drafts |
| `ApprovedRuns.ApprovedDraftsAreCommitted` | backend/app/agent/service.py:138-173 | What the commit job loads and starts from is, list by list, what the reviewer sent or else what was parked |
| `RunService.ReviewIsStep` | backend/app/agent/service.py:138-158 | A review is possible exactly of a run awaiting one, and taken in one piece it is the lifecycle's review step |
| `RunService.LateReviewStands` | backend/app/agent/service.py:142-158 | A review whose write comes late puts the drafts it had read, or those the reviewer sent, on a running row, or cancels it, whatever the status has become |
| `RunService.RunTable.CreateRun` | backend/app/agent/router.py:29-33 | Inserts a blank queued row and then its job; either call may fail before or after its effect |
| `RunService.RunTable.SubmitReview` | backend/app/agent/service.py:138-158 | 404 exactly for a missing or foreign run, 409 exactly for one not awaiting review, otherwise, list by list, the drafts sent or else the parked ones on a running row, or a cancelled row without drafts, written if and only if the UPDATE took effect |
| `RunService.RunTable.ReviewRun` | backend/app/agent/router.py:58-64 | A commit job is queued only for an approval that was accepted and written |
| `ServerSentEvents.ParseFrame` | frontend/src/lib/sse.ts:15-30 | The line loop computes the frame's event: last event and data lines win, no data or bad JSON is no event |
| `ServerSentEvents.TrimExact` | frontend/src/lib/sse.ts:19-23 | Trimming takes exactly JavaScript's blanks off both ends |
| `ServerSentEvents.FrameExactly` | frontend/src/lib/sse.ts:15-30 | The last data line is parsed, the last event line names the event and without one it is a message; no data line or unreadable JSON is no event |
| `ServerSentEvents.TakeFrames` | frontend/src/lib/sse.ts:43-49 | The inner loop takes exactly the complete frames off the buffer and leaves none in it |
| `ServerSentEvents.ParseSse` | frontend/src/lib/sse.ts:32-51 | For any chunks the events are those of the whole stream: the cuts do not matter |
| `ServerSentEvents.DrainAppend` | frontend/src/lib/sse.ts:41-49 | A stream drained in two pieces, cut anywhere, gives the events of the whole |
| `ServerSentEvents.DrainIsCut` | frontend/src/lib/sse.ts:41-49 | The text is cut at every first blank line; the events are those of the frames that are one, in order, and what has no blank line yet is left |
| `ServerSentEvents.RoundTrip` | backend/app/streaming.py:14-19 | Printed, cut anywhere and parsed, events come back in order and comments drop, exactly when every event name is one trimmed line |
| `ServerSentEvents.DrainedNamesAreGood` | frontend/src/lib/sse.ts:19-20 | The parser can only ever produce such names |
| `SchemaStatements.RunByName` | backend/app/graph/migrations.py:104-107 | A schema file runs exactly if it breaks no name, and acts on each name independently |
| `SchemaStatements.RestartAfterPrefix` | backend/app/graph/migrations.py:104-107 | Any prefix of a guarded file and then the whole file is the whole file once |
| `SchemaStatements.RestartSafe` | backend/app/graph/migrations.py:104-107 | That holds of a file exactly when the first statement on each name is guarded |
| `GraphMigrations.Runner.ApplyStep` | backend/app/graph/migrations.py:101-111 | One file: auto-commits and then its record, or one transaction, with a death at any call |
| `GraphMigrations.Runner.ApplyMigrations` | backend/app/graph/migrations.py:114-147 | The loop over the files, forward or back, with a death at any call; returns exactly the pending ids |
| `MigrationLaws.AnyDeaths` | backend/app/graph/migrations.py:114-129 | However often and wherever earlier runs died, a complete run ends with the schema, data effects and records of one clean run |
| `MigrationLaws.HarmlessExactlyWhenGuarded` | backend/app/graph/migrations.py:101-111 | Deaths are harmless exactly when every pending schema-only file guards its first touches; otherwise some death blocks every later run |
| `MigrationLaws.CompleteEffects` | backend/app/graph/migrations.py:93-129 | Each pending data migration takes effect exactly once, in file order |
| `MigrationSteps.FinishesInOrder` | backend/app/graph/migrations.py:84-129 | A complete run finishes exactly if no due file mixes schema and data statements and all due statements run one after another; then schema and data are what that makes of them |
| `MigrationSteps.CommandsInOrder` | backend/app/graph/migrations.py:114-147 | Applying runs the unrecorded files forward, oldest first; rolling back runs the recorded ones' rollbacks, newest first |
| `MigrationSteps.PendingIdsPicked` | backend/app/graph/migrations.py:114-147 | The ids returned are those of the due files, in order |
| `MigrationLaws.CompleteBooks` | backend/app/graph/migrations.py:114-147 | Each pending file is booked (or unbooked) exactly once and no other entry changes |
| `MigrationLaws.SecondRunIsNoChange` | backend/app/graph/migrations.py:114-129 | A second complete run sends nothing |
| `MigrationLaws.ApplyThenRollback` | backend/app/graph/migrations.py:132-147 | After apply every migration is recorded; after rollback, newest first, none is |
| `ChatTools.Turn.RunSearch` | backend/app/chat/service.py:70-115 | Too short a query is unusable; otherwise the text found and its part, the note that the search failed, or the interruption raised |
| `ChatTools.Turn.RunLaunch` | backend/app/chat/service.py:118-154 | An unusable topic, a rejected one, or a run inserted and then enqueued, where either call may fail before or after its effect |
| `ChatTools.Turn.CallTool` | backend/app/chat/service.py:157-173 | Dispatch by tool name; arguments or a function that are not objects raise |
| `ChatTools.Turn.ResolveTools` | backend/app/chat/service.py:176-215 | The nested loops do what the specification of a turn says, wherever they stop |
| `ChatLaws.CalledLaw` | backend/app/chat/service.py:70-173 | A call raises exactly in the listed cases, and is otherwise answered, a search with exactly the text it found and its part or the note that it failed; only a launch touches the stores, and one that went through is in both once and has its part |
| `ChatLaws.TurnIsWellFormed` | backend/app/chat/service.py:176-215 | At most max_rounds blocks; on a normal end each one assistant message with k >= 1 calls and exactly their k results, only the last launching, and a reason to stop; on an error quiet whole rounds and one cut short at the call that raised |
| `ChatLaws.CountsAgreeExactly` | backend/app/chat/service.py:198-212 | Runs in the table, jobs on the queue and launch parts are equal in number exactly if the turn did not end at a call whose insert took effect |
| `ChatLaws.WholeRoundsPair` | backend/app/chat/service.py:185-190 | Whole rounds read as k >= 1 calls followed by exactly their k results, in order, judged from the messages alone |
| `ChatLaws.RunsAreDistinct` | backend/app/chat/service.py:118-154 | However a turn ends, each run it inserted has an id of its own, and a run is queued at most once and only if inserted |

## Left out

- Timestamps, row order, embeddings and vector similarity: a search returns an arbitrary list of ids.
- Prompts, the contents of model answers beyond the fields that are read, survey ranking, text extraction and address checks: oracles.
- JSON and UUID syntax: text codecs of which only "what was printed reads back" is assumed, and for JSON that its text has no raw newline and no blank at either end.
- UTF-8 decoding of the stream: chunks are strings.
- The driver's own transaction retries, Neo4j's matching order, and other users acting in the middle of one agent run: a statement is an atomic update, and a run sees only its own writes between its calls.
- `_reject_relationship` reads again after the guarded create; the second read sees the same graph here.
- Scheduling inside the analyze fan-out: its updates are reduced and recorded in document order, and a failure of the fan-out is one failure of the visit.
- Notes are structured values, not their text; an error's text is one of two failures.
- `stream_run`, listing runs, the bounded search graph of the chat tool, authentication, tracing and the user interface.
- `load_graph_migrations` and `_split_statements`: a migration is given as its list of steps. A file that mixes schema and data steps is one transaction, which Neo4j refuses; it always fails here.
- ResearchRun.StaysOnTrack: the graph library's own recursion limit, which could stop a run earlier, is not modelled.
- AgentRuns.ReviewChangesNothing: supposes that the two progress writes after commit and enrich, which only the direct run makes, do not fail; AgentRuns.DirectWritesArePrefix says what holds when one does.
- RunRecords.DirectRunRecorded: speaks of a fresh run; a job taken twice starts its lists anew, which RunLifecycle covers as a broken promise.
- GraphService.GraphStore.ListGraph: the source reads entities and relationships in two concurrent sessions, so a write can fall between them; here both read one state.
- GraphService.GraphStore.SingleVisibility: and CascadeVisibility are each one isolated step of a run; what other transactions can see or do between the statements of one is left to the database.
- ChatTools.Turn.ResolveTools: the search results' text and the names list returned for logging are not modelled.
