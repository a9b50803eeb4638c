# Autonomous security auditor: verified model of the agents and the knowledge ingestor

This project models the deterministic logic of the security auditor. It has two parts.

The audit and remediation agents (`backend/agents/auditor_agent.py`):
- `perceive_kong` groups the gateway's plugins by service. It adds the plugins of each service's routes and builds one record per service, with a deduplicated plugin collection.
- `reason_audit` sends each record to the auditor endpoint and files the replies under `"{name}:policy:{name}"`. A failed call is filed under the key bound last: that of the most recent service whose call got through. The stage raises exactly when the call for the first service fails.
- `reason_remediation` walks the audit report and keeps the policies whose compliance flag is falsy. It builds one remediation item per kept policy, with a severity taken from the first word of the policy name. It then asks the remediation endpoint for a plan, and the plan is `[]` when that call fails.
- The identity stages and the two four-stage graphs (perceive, reason, plan, act) run one after the other.

Knowledge-base ingestion (`backend/rag/knowledge_ingestor.py`):
- Each regular file is cut into 300-character chunks.
- Each chunk is embedded and its embedding length is checked.
- The record is written to the key-value store under `"embedding:" + id`, and the records are read back in ingestion order.
- An embedding failure or a wrong length stops the request with a 500 that names the file. Records written before that stay in the store.

Modules, one concern each:

| file | module | models |
|---|---|---|
| `wrappers.dfy` | `Wrappers` | `Option` and `Result` |
| `json_values.dfy` | `JsonValues` | parsed JSON: dictionaries with insertion order, `dict.get`, `d[k] = v` and truthiness |
| `kong_perception.dfy` | `KongPerception` | the two loops of `perceive_kong` |
| `audit_reasoning.dfy` | `AuditReasoning` | the loop of `reason_audit` |
| `remediation.dfy` | `Remediation` | the loops, the severity lookup and the plan of `reason_remediation` |
| `auditor_agent.dfy` | `AuditorAgent` | the state dictionary as a class, the eight stages, the two graphs |
| `chunking.dfy` | `Chunking` | the chunk slicing comprehension |
| `knowledge_ingestor.dfy` | `KnowledgeIngestor` | the store as a class, the ingestion loops, early abort, read-back |

Each loop of the source is a method whose `ensures` ties its result, or its new state, to a specification function. The lemmas then prove the source's promises about those functions.

Things outside the program are parameters:
- the gateway's lists of services, plugins, routes and route plugins;
- the auditor and remediation endpoints;
- the embedding provider, where the `n`-th call of a request on text `t` returns `embed(n, t)`, so a repeated chunk may get a different outcome;
- the uuid generator and the clock, where the `n`-th draw of a request is `uuid(n)` and `clock(n)`.

## Model

| member | source | states |
|---|---|---|
| JsonValues.Get | backend/agents/auditor_agent.py:161-166 | `d.get(key)` is absent iff the key is not among the dictionary's keys; a present result is a stored pair |
| JsonValues.Put | backend/agents/auditor_agent.py:119-122 | after `d[key] = v` the key reads `v` and every other key reads what it read before |
| JsonValues.PutKeys | backend/agents/auditor_agent.py:119-122 | writing an existing key keeps the key order; writing a new key appends it (insertion order) |
| JsonValues.PutKeepsDistinct | backend/agents/auditor_agent.py:119-122 | a dictionary write never creates a duplicate key |
| JsonValues.Truthy | backend/agents/auditor_agent.py:165 | `not x` holds exactly for null, false, 0, the empty string, the empty list and the empty dictionary |
| KongPerception.AttachedNames | backend/agents/auditor_agent.py:52-56 | a name is appended under a service id iff some plugin of the global list is attached to that id and carries that name |
| KongPerception.RouteNames | backend/agents/auditor_agent.py:65-69 | a name is among the route plugins iff some route of the service has a plugin of that name |
| KongPerception.ServicePluginsMap | backend/agents/auditor_agent.py:50-56 | the map's keys are exactly the ids that some plugin is attached to; each entry lists that id's plugin names in list order; plugins with no service are skipped |
| KongPerception.UnattachedHasNoNames | backend/agents/auditor_agent.py:63 | an id with no attached plugin has no names, so the `[]` default loses nothing |
| KongPerception.ExtendWithRoutePlugins | backend/agents/auditor_agent.py:65-69 | `extend` over the routes yields the list followed by each route's plugin names, route after route |
| KongPerception.PerceiveServices | backend/agents/auditor_agent.py:58-75 | `kong_data` is the reference record list: one record per service, in service order, with the deduplicated collection of attached and route plugins |
| KongPerception.PluginMembership | backend/agents/auditor_agent.py:52-74 | a name is in a record's collection iff a plugin attached to that service id carries it or one of the service's routes has it; plugins with no service contribute nothing |
| KongPerception.NoPluginsEmptyCollection | backend/agents/auditor_agent.py:52-74 | a service with no attached plugin and no route plugin gets an empty collection |
| KongPerception.RecordsFollowServices | backend/agents/auditor_agent.py:58-75 | exactly one record per service, in order, with `service_name` and `service_id` copied unchanged |
| AuditReasoning.ReportKey | backend/agents/auditor_agent.py:119 | the key `"{name}:policy:{name}"` starts with the name and is `2·len(name) + 8` characters long |
| AuditReasoning.ReportKeyInjective | backend/agents/auditor_agent.py:119 | distinct service names get distinct report keys |
| AuditReasoning.ErrorEntry | backend/agents/auditor_agent.py:122 | the entry of a failed call is an object whose only key is `error`, holding "Failed to parse response: " followed by the reason |
| AuditReasoning.Step | backend/agents/auditor_agent.py:109-122 | one iteration raises iff the request failed while no key was bound; otherwise the key bound afterwards (the service's own key, or the one bound before when the request failed) holds the body or the error object, and every other key reads as before |
| AuditReasoning.AuditServices | backend/agents/auditor_agent.py:88-124 | the loop yields the reference report, or the exception raised when the first request fails |
| AuditReasoning.RunSnoc | backend/agents/auditor_agent.py:91-122 | one more record is one more loop step after the loop over the earlier records |
| AuditReasoning.RunCompletes | backend/agents/auditor_agent.py:109-122 | with no failed request the loop completes and the key variable holds the last service's key |
| AuditReasoning.RunKeepsDistinct | backend/agents/auditor_agent.py:109-122 | every step of the loop, whether it writes its own key or the key bound earlier, keeps the report free of repeated keys |
| AuditReasoning.RunDistinctKeys | backend/agents/auditor_agent.py:109-124 | whenever the stage completes, whichever requests failed, the report never repeats a key; with no failed request it always completes |
| AuditReasoning.RunKeys | backend/agents/auditor_agent.py:119-120 | with no failed request the set of the report's keys is the set of the services' keys; that none of them repeats is `RunDistinctKeys` |
| AuditReasoning.RunLastEntries | backend/agents/auditor_agent.py:119-122 | with no failed request, each key holds the reply to the last service with that name: its body, or the parse-error object |
| AuditReasoning.ReportWhenKeysBound | backend/agents/auditor_agent.py:91-124 | when no request fails the report has distinct keys, exactly the service keys, each holding its last service's reply |
| AuditReasoning.RaisesIffFirstRequestFails | backend/agents/auditor_agent.py:109-122 | the stage raises `UnboundLocalError` iff the request for the first service fails: only then is the key variable unbound in the `except` |
| AuditReasoning.BoundRunCompletes | backend/agents/auditor_agent.py:109-122 | once the key variable is bound the loop never raises and the key stays bound, so failures after a successful request (e.g. ok, fail, fail) do not stop the stage |
| AuditReasoning.LastBound | backend/agents/auditor_agent.py:109-122 | the last position before `i` whose request got through: absent iff every earlier request failed, otherwise every request after it and before `i` failed |
| AuditReasoning.RunLastKey | backend/agents/auditor_agent.py:109-122 | after the services before `i`, the key variable holds the key of the last of them whose request got through, or is unbound when there is none |
| AuditReasoning.FailedRequestOverwritesLastBound | backend/agents/auditor_agent.py:109-122 | when the first request got through, a failed request for service `i` writes its error object under the key of the last earlier service whose request got through, and the loop goes on |
| AuditReasoning.RequestFailureOverwritesPrevious | backend/agents/auditor_agent.py:109-122 | when every request before `i > 0` got through, a failed request for service `i` writes its error object under service `i - 1`'s key, the key bound last; service `i` has a key iff an earlier service shares its name |
| AuditReasoning.ServiceKeyMembership | backend/agents/auditor_agent.py:119 | a name's report key is among the services' keys iff some service has that name |
| Remediation.LeadingWord | backend/agents/auditor_agent.py:167 | the longest whitespace-free prefix of a string |
| Remediation.LeadingSpaces | backend/agents/auditor_agent.py:167 | the number of leading whitespace characters of a string |
| Remediation.FirstToken | backend/agents/auditor_agent.py:167 | `split()[0]` fails iff the name is empty or all whitespace; otherwise it is a non-empty word with no whitespace |
| Remediation.SeverityIsCriticalOrMedium | backend/agents/auditor_agent.py:150-167 | a single token never matches a multi-word key of the table, so the severity is "Critical" when the first word is "Authentication" and "Medium" otherwise |
| Remediation.SeverityOf | backend/agents/auditor_agent.py:150-167 | `severity_map.get(token, "Medium")`: "Critical" iff the token is "Authentication", "High" iff "Rate Limiting", "Low" iff "IP Restriction" or "Request Transformation"; anything other than "Medium" comes from the table |
| Remediation.ComplyFlag | backend/agents/auditor_agent.py:164 | the flag is `comply` when present (whatever its value), else `comply_status` when present, else a truthy default, so a policy with neither key is compliant |
| Remediation.Iterate | backend/agents/auditor_agent.py:161-163 | iterating `policies` yields a list's items, a dictionary's keys in insertion order, or a string's characters; any other value is not iterable |
| Remediation.PolicyEntry | backend/agents/auditor_agent.py:164-174 | a policy gives an item iff it is a dictionary whose flag (`comply`, else `comply_status`, else true) is falsy; it raises iff it is not a dictionary or its flagged name does not split; the item copies the service name and policy name, defaults `details` to "Non-compliance detected." and `missingPlugins` to `[]`, and carries the severity above |
| Remediation.RemediationPlan | backend/agents/auditor_agent.py:188-201 | the plan is the endpoint's reply, or `[]` when the call failed |
| Remediation.AppendPolicyItems | backend/agents/auditor_agent.py:163-174 | the inner loop appends the items of one service's policies, or stops with the exception of the first policy that raises |
| Remediation.CollectRemediationInput | backend/agents/auditor_agent.py:159-174 | the loops yield the reference `remediation_input`, or the exception: `AttributeError` for a report or service entry that is not a dictionary, `TypeError` for non-iterable `policies` |
| Remediation.PolicyItemsSelectFlagged | backend/agents/auditor_agent.py:163-174 | item `k` of one service is made from its `k`-th non-compliant policy |
| Remediation.SelectsExactlyNonCompliant | backend/agents/auditor_agent.py:161-174 | `remediation_input` holds exactly the non-compliant policies, in report order then policy order, and each of their names splits |
| Remediation.NamesSplitAppend | backend/agents/auditor_agent.py:167 | every name in `a + b` splits iff every name in `a` and in `b` does |
| Remediation.PolicyItemsComplete | backend/agents/auditor_agent.py:163-174 | dictionary policies whose flagged names all split never raise |
| Remediation.ServiceItemsComplete | backend/agents/auditor_agent.py:161-174 | a dictionary service entry whose `policies` are dictionaries with splittable flagged names never raises |
| Remediation.WellShapedCompletes | backend/agents/auditor_agent.py:161-174 | the converse of the error cases: a well-shaped report whose flagged names all split is processed without an exception |
| Remediation.BlankPolicyNameRaises | backend/agents/auditor_agent.py:166-167 | a non-compliant policy whose name is empty or all whitespace makes the stage raise |
| Remediation.AllCompliantIsEmpty | backend/agents/auditor_agent.py:159-174 | a well-shaped report with no non-compliant policy gives an empty `remediation_input` |
| AuditorAgent.AgentState.constructor | backend/agents/auditor_agent.py:231-246 | a graph starts from an empty state, or from one holding only `audit_report` |
| AuditorAgent.AgentState.PerceiveKong | backend/agents/auditor_agent.py:44-82 | only `kong_data` changes: it becomes the reference record list |
| AuditorAgent.AgentState.ReasonAudit | backend/agents/auditor_agent.py:85-125 | only `audit_report` changes: it becomes the report of the records in `kong_data` (none when absent); when the stage raises, nothing changes |
| AuditorAgent.AgentState.ReasonRemediation | backend/agents/auditor_agent.py:147-203 | only `remediation_plan` changes: it becomes the plan for the items of `audit_report` (an empty report when absent); when the stage raises, nothing changes |
| AuditorAgent.AgentState.PlanAudit | backend/agents/auditor_agent.py:128-130 | the state is unchanged |
| AuditorAgent.AgentState.ActionAudit | backend/agents/auditor_agent.py:133-137 | the state is unchanged |
| AuditorAgent.AgentState.PerceiveIssues | backend/agents/auditor_agent.py:142-144 | the state is unchanged |
| AuditorAgent.AgentState.PlanRemediation | backend/agents/auditor_agent.py:206-208 | the state is unchanged |
| AuditorAgent.AgentState.ActionRemediation | backend/agents/auditor_agent.py:211-215 | the state is unchanged |
| AuditorAgent.RunAgents | backend/agents/auditor_agent.py:220-246 | the audit graph yields `kong_data` and the report of those records and writes no plan; the remediation graph, seeded with that report alone (no `kong_data`), yields the plan for its flagged policies; the first stage that raises stops the run, and when the audit raises the remediation state stays empty |
| Chunking.Chunks | backend/rag/knowledge_ingestor.py:102 | every chunk is non-empty and at most 300 characters; every chunk but the last is exactly 300 |
| Chunking.ChunkCountIsCeiling | backend/rag/knowledge_ingestor.py:102 | a file whose text as read has length L gives ceil(L / 300) chunks, and none when it is empty |
| Chunking.ChunksUnfold | backend/rag/knowledge_ingestor.py:102 | the chunks are the first 300 characters followed by the chunks of the rest |
| Chunking.ChunksConcat | backend/rag/knowledge_ingestor.py:102 | concatenating the chunks of a file gives back its content exactly |
| KnowledgeIngestor.StoreKeyInjective | backend/rag/knowledge_ingestor.py:121 | distinct chunk ids get distinct store keys |
| KnowledgeIngestor.StoreKey | backend/rag/knowledge_ingestor.py:121 | the key is `"embedding:"` followed by the chunk id, which can be read back from it |
| KnowledgeIngestor.FileChunksRejoin | backend/rag/knowledge_ingestor.py:94-104 | every chunk a regular file contributes carries the file's name, and its chunk texts joined in order are the file's text as read |
| KnowledgeIngestor.IngestChunk | backend/rag/knowledge_ingestor.py:105-130 | one chunk stops the request iff its embedding failed or has the wrong length, with the store unchanged and the file's error; otherwise the next uuid is recorded and the chunk is written under its key with its vector and metadata, every other key keeping its record |
| KnowledgeIngestor.DetailOf | backend/rag/knowledge_ingestor.py:133-143 | the detail of an id carries that id; it has metadata iff the key is in the store, and then the stored content, vector and metadata; otherwise empty content and vector |
| KnowledgeIngestor.EmbeddingFailedMessage | backend/rag/knowledge_ingestor.py:107-108 | the error message names the file |
| KnowledgeIngestor.DimensionMismatchMessage | backend/rag/knowledge_ingestor.py:110-111 | the error message names the file |
| KnowledgeIngestor.ReadBack | backend/rag/knowledge_ingestor.py:132-143 | one detail per ingested id, in ingestion order, each carrying its id |
| KnowledgeIngestor.IngestAllAppend | backend/rag/knowledge_ingestor.py:104-130 | ingesting `a + b` is ingesting `a`, then `b` unless `a` aborted |
| KnowledgeIngestor.IngestChunksIsFlat | backend/rag/knowledge_ingestor.py:104-130 | the chunk loop of one file is the flat loop over that file's chunks |
| KnowledgeIngestor.IngestFilesIsFlat | backend/rag/knowledge_ingestor.py:94-130 | the nested file and chunk loops do what one loop over all chunks of all regular files does |
| KnowledgeIngestor.FirstRejected | backend/rag/knowledge_ingestor.py:105-111 | the position of the first chunk whose embedding, chunk `k` being the call numbered `from + k`, failed or has the wrong length: every earlier one was accepted |
| KnowledgeIngestor.AcceptedRunIds | backend/rag/knowledge_ingestor.py:113-130 | when every embedding is accepted the loop completes, with one fresh id per chunk recorded in order |
| KnowledgeIngestor.AcceptedRunKeepsOthers | backend/rag/knowledge_ingestor.py:121-128 | a key that none of the new ids maps to keeps its presence and its record |
| KnowledgeIngestor.AcceptedRunWrites | backend/rag/knowledge_ingestor.py:113-128 | chunk `k` is stored under `"embedding:" + id_k` with its own content and vector, and metadata with its filename, id, timestamp and source "api_policies" |
| KnowledgeIngestor.IngestAllOutcome | backend/rag/knowledge_ingestor.py:104-130 | the loop completes iff every embedding is accepted; otherwise it stops at the first rejected chunk with that chunk's error, and the store keeps what the earlier chunks wrote |
| KnowledgeIngestor.ReadBackEntry | backend/rag/knowledge_ingestor.py:132-143 | after an accepted run, detail `k` is chunk `k` as written |
| KnowledgeIngestor.CompletedIngestReadsBack | backend/rag/knowledge_ingestor.py:92-149 | the request completes iff every embedding is accepted; the response lists every chunk of every regular file in ingestion order, each with its id, content, vector and metadata |
| KnowledgeIngestor.FailedIngestStopsAtFirstRejected | backend/rag/knowledge_ingestor.py:104-111 | a failed request carries the error of the first rejected chunk, naming its file, and leaves the store as the earlier chunks wrote it |
| KnowledgeIngestor.FailedIngestKeepsEarlierWrites | backend/rag/knowledge_ingestor.py:105-128 | after a failed request, every chunk before the rejected one is still in the store (no rollback) |
| KnowledgeIngestor.StatusOfIngest | backend/rag/knowledge_ingestor.py:87-149 | 404 iff the directory is missing, with the store untouched; 200 iff every embedding is accepted; 500 otherwise |
| KnowledgeIngestor.ChunksComeFromFiles | backend/rag/knowledge_ingestor.py:94-104 | every chunk ingested comes from a regular file and carries its name; other directory entries contribute nothing |
| KnowledgeIngestor.VectorStore.IngestKnowledgeBase | backend/rag/knowledge_ingestor.py:84-149 | the new store and the response are those of the reference request |
| KnowledgeIngestor.VectorStore.IngestFileChunks | backend/rag/knowledge_ingestor.py:104-130 | the chunk loop of one file writes the store, ids and draw count of the reference loop, or stops with its error, keeping earlier writes |
| KnowledgeIngestor.VectorStore.ReadBackDetails | backend/rag/knowledge_ingestor.py:132-143 | the details are the reference read-back of the ingested ids from the current store |

## Left out

- Fetching from the gateway (`fetch_kong_data`) is not modelled: services, plugins, routes and route plugins are inputs. Its fallback to `[]` on error means only that those inputs may be empty.
- Missing `id` or `name` fields in gateway objects are not modelled (the source would raise `KeyError`). Names and ids are strings, and a plugin's `service` is present or absent.
- `list(set(...))` has no defined order, so a record's plugin collection is a `set`.
- AuditReasoning.AuditServices: the `"unknown_service"` default of `kong_data.get("service_name", ...)` is not modelled. Every record that `perceive_kong` writes carries a name, so the default is never taken.
- The auditor call is a function from a service name and its plugin set to one of three replies:
  - a body;
  - a failure before the key is bound (request error or 4xx/5xx status);
  - a failure after it (unparsable body).
  The prompt text and the request payload are not modelled.
- The remediation call is a function from the item list to a reply body, or none on failure. The prompt and `json.dumps` rendering are not modelled.
- JSON numbers are integers; floating-point values are not modelled.
- A JSON object with a repeated key is not collapsed as Python's parser collapses it, to one entry at the key's first position holding the last value. `Get` reads the first occurrence, and `Iterate` and `ReportItems` visit every occurrence.
- JSON file dumps (`filtered_kong_data.json` and the two action stages' files) and console output are not modelled. The stages that write them leave the state unchanged, which is modelled.
- A stage that raises returns the exception as a value instead of unwinding. `RunAgents` stops at that stage, as the script would.
- Flask routing, `create_vector_index`, Redis connection errors and failing `hset` calls are not modelled.
- A file is its text as read, after newline translation: CR and CRLF line ends on disk are not modelled, so the chunk count and the rejoin property hold for the text as read, not for the bytes on disk. UTF-8 decode errors are not modelled. The directory listing order is an input.
- Vectors are stored and read back as the embedding's values: float32 conversion and byte serialisation are not modelled. Only the length check is.
- Metadata is a structured record; the `str(metadata)` rendering stored by the source is not modelled. A read-back whose record is missing carries no metadata, where the source gives `""`.
- The embedding provider is a function of the call index and the chunk text; the uuid generator and the clock are functions of the draw index.
- KnowledgeIngestor.AcceptedRunWrites: assumes the drawn uuids are pairwise distinct, because uuid4 collisions are not modelled. The same hypothesis is on KnowledgeIngestor.CompletedIngestReadsBack, KnowledgeIngestor.ReadBackEntry and KnowledgeIngestor.FailedIngestKeepsEarlierWrites.
- `get_all_embeddings`, `init_auditor.py`, the Redis test scripts and the frontend are not part of this model.
