# Demucs GPU orchestration: a Dafny model

This project models the orchestration core of a GPU audio-separation
service. Two command-line clients rent a GPU machine for a Demucs separation
job:
- vastai_client.py rents a Vast.ai instance;
- runpod_client.py rents a RunPod pod.

Each client ranks the marketplace offers and creates a machine on the first
offer that accepts. It then waits until the machine's separation API answers,
submits the job, polls it until it finishes and downloads the result. Unless
asked to keep the machine, it releases it on every exit path.

The model also covers two more parts:
- the separation API's in-memory job table (server.py);
- the batch launcher (test_concurrent_instances.py). It launches N Vast.ai
  instances round-robin over the ranked offers, records them in a JSON
  registry and later destroys them from that registry.

Every remote answer is an input to the model: the HTTP and GraphQL replies,
health probes, the clock, generated job ids and the registry file's
contents. A polling loop's timeout is a poll budget: the number of scripted
replies. Python exceptions are `Result` values whose `Fault` records what was
raised. Missing JSON keys are `Option`s, and Python's slicing, truthiness,
`.get` defaults, ASCII `lower()` and `rstrip("/")` are written out in
`Support`; `or` fall-through is written out where it is used
(`RunPodGpus.PriceOf`, `JobServer.ChosenId`). The `job_id` of the server's
`POST /job` reply is read the same way by both clients (`Support.PostedJobId`). Python's `list.sort` is a stable sort, so it is
modelled by a stable insertion sort (`Sorting`).

Modules:
- Vast.ai side: `VastOffers` (search and ranking), `VastInstances` (the
  client's instance calls), `VastJobs` (the job client) and `VastSeparate`
  (`cmd_separate`).
- RunPod side: `RunPodGpus` (the GPU listing and preference ranking),
  `RunPodPods` (the client), `RunPodJobs` (the job client) and
  `RunPodSeparate` (`cmd_separate`).
- `JobServer`: the server's job table.
- `ConcurrentInstances`: the batch launcher.

Behaviour of the code that is easy to miss (the model follows the code):
- **Registry deletion.** The destroy-all pass deletes the registry whatever
  the destroy replies were, and it counts every destroy *call* as a success.
  `destroy_instance` returns False instead of raising, so only an unreadable
  entry counts as a failure.
- **Saving the registry.** It is saved after the batch, and only when
  something was launched. On KeyboardInterrupt, it is saved only if the
  instance list is non-empty. Any other exception escapes unsaved, including
  the ZeroDivisionError that `-n 0` raises in `run`'s summary line.
- **Vast.ai provisioning.** It moves on to the next offer after *any*
  creation error. Only the RunPod side stops at a non-capacity error.
- **Vast.ai readiness.** Running out of polls makes
  `wait_for_instance_ready` return None, not raise.
  `cmd_separate` then raises "Instance failed to start" inside its `try`.
- **Vast.ai teardown** never raises. RunPod's `stop_pod` can raise, and that
  exception then replaces the command's outcome.
- **RunPod starting pod.** `RunPodSeparate.CmdSeparate` reads the pod's
  replies as the code does. A pod first reported with `runtime: null` thus
  ends the command with an AttributeError, after the pod is stopped unless
  kept (see Findings). `RunJob` and `Rent` take the reading as a parameter,
  so the same workflow is also stated with the corrected reading.
- **Job list limit.** `GET /jobs?limit=0` lists every job, because
  `list(...)[-0:]` is the whole list.

## Model

| member | source | states |
|---|---|---|
| Support.SliceTo | runpod_client.py:165 | `s[:n]` is a prefix of length `min(n, len)` for `n >= 0` and `len + n` (at least 0) for negative `n` |
| Support.SliceFrom | server.py:275 | `s[start:]` is a suffix whose length follows Python's rules for negative and non-negative starts |
| Support.Lower | runpod_client.py:154 | lower-casing keeps the length and maps every character through ASCII lower-casing |
| Support.ContainsIsSubstring | runpod_client.py:154 | `t in s` holds exactly when `t` occurs in `s` at some position |
| Support.RStripSlash | vastai_client.py:321 | `rstrip("/")` gives a prefix that does not end in '/', and removes only '/' characters |
| Sorting.SortByKeySorted | vastai_client.py:155 | sorting by a key gives a list in non-decreasing key order with the same elements, counted with multiplicity |
| Sorting.SortByKeyStable | vastai_client.py:155 | the sort is stable: elements with equal keys keep their input order |
| VastOffers.SearchOffers | vastai_client.py:116-144 | a raised request or a body without `offers` gives []; otherwise the first `max_results` offers, each with its documented defaults |
| VastOffers.Reliable | vastai_client.py:154 | keeps exactly the offers whose reliability is at least 0.9 |
| VastOffers.RankingOf | vastai_client.py:153-157 | the ranking holds only reliable offers from the search, in non-decreasing price order, as many as the slice allows, and no reliable offer left out is cheaper than one kept |
| VastOffers.RankedOffers | vastai_client.py:146-157 | `get_ranked_offers` returns searched, reliable offers in price order, at most `max_results`, no offer more often than the search returned it, and the cheapest ones: no reliable offer left out costs less than one returned |
| VastOffers.RankedOffersStable | vastai_client.py:153-157 | offers of equal price stay in search order |
| VastInstances.Selected | vastai_client.py:217-228 | an instance is read exactly when the reply's `instances` is an object or a non-empty list |
| VastInstances.GetInstance | vastai_client.py:211-248 | a raised request reports status "error"; no instance reports "not_found" with the requested id; otherwise the instance's id, `actual_status` (default "unknown"), public IP, `ports` (default `{}`, which the readiness check reads), `gpu_name` and `dph_total` as the cost (default 0) |
| VastInstances.DestroyInstance | vastai_client.py:250-259 | destroy never raises and reports success exactly when the reply says `success: true` |
| VastInstances.ApiUrl | vastai_client.py:279-292 | a URL is probed exactly when the instance is running, has a public IP and the first `8185/tcp` binding has a host port; the URL is `http://ip:port` |
| VastInstances.UnreadableInstanceNotReady | vastai_client.py:276-287 | a poll that found no instance never makes the wait return |
| VastInstances.VastAIClient.constructor | vastai_client.py:61-67 | a new client has no active instance |
| VastInstances.VastAIClient.CreateInstance | vastai_client.py:159-209 | success exactly when the reply has `success`, recording the new contract as the active instance; every failure raises the doubly prefixed message and leaves the active instance alone |
| VastInstances.VastAIClient.WaitForInstanceReady | vastai_client.py:261-311 | returns a URL exactly when some poll saw a running instance with a probe-able URL answering 200, and that URL is the first such poll's; None when the budget ran out |
| VastJobs.BaseUrl | vastai_client.py:320-321 | the base URL is the given URL without its trailing slashes |
| VastJobs.NewJobPayload | vastai_client.py:337-341 | `interval_cut` is sent exactly when it is truthy |
| Support.PostedJobId | vastai_client.py:337-350 | `create_job` (and RunPod's `create_job(...)["job_id"]`, runpod_client.py:482-487) yields the reply's `job_id`; a failed request raises, a reply without it is a KeyError |
| VastJobs.EndWait | vastai_client.py:403-418 | a terminal poll ends the wait: a raised status request propagates; while streaming, the final logs are fetched once at the current offset and a failure there propagates; otherwise "completed" returns the status and "failed" raises with the job's error |
| VastJobs.WaitForJob | vastai_client.py:386-446 | the first poll whose status is terminal decides the outcome, and a budget without one is a timeout; the log requests made and the progress shown are those `Fetches` and `Progress` describe, plus the final log fetch of a terminal poll while streaming |
| VastJobs.FetchesSpec | vastai_client.py:420-430 | log requests are made exactly at the polls where streaming is still on, each with the cursor of that poll; after a fetch raises, no further request is made |
| VastJobs.ProgressSpec | vastai_client.py:434-442 | each non-terminal poll shows the percentage line exactly when streaming is off and the job reports a positive segment total |
| VastJobs.CursorIsReported | vastai_client.py:420-427 | the log offset sent is 0 or an offset the server reported with non-empty logs |
| VastJobs.CursorMonotone | vastai_client.py:420-427 | if the server never reports an offset below the requested one, the cursor never moves back |
| VastJobs.WaitReturnsCompleted | vastai_client.py:402-418 | the wait returns exactly when the first terminal status is "completed" and, while streaming, its final log fetch does not raise; the status returned is that poll's |
| VastSeparate.Provision | vastai_client.py:483-494 | offers are tried in rank order up to and including the first that accepts; an instance is created exactly when one accepted, and its id is that reply's new contract |
| VastSeparate.RunJob | vastai_client.py:499-524 | the `try` block's outcome is the readiness, submission, job-wait and download stages in sequence; the payload is sent exactly when the instance became ready |
| VastSeparate.CmdSeparate | vastai_client.py:466-529 | no key, no offer or no accepting offer exits 1 without renting; otherwise the outcome is the job phase's, and the created instance (the accepting offer's `new_contract`) is the one destroyed, exactly once unless kept |
| VastSeparate.CompletedRunNeedsEveryStage | vastai_client.py:499-524 | a completed run had a ready poll, a job id, a poll that saw "completed" and a successful download |
| RunPodGpus.PriceOf | runpod_client.py:119-120 | a non-zero minimum bid is the price; otherwise a non-zero on-demand price; otherwise, or with no price object, 999; so the result is 999 or non-zero |
| RunPodGpus.EligibleErrPersists | runpod_client.py:117-129 | once a qualifying GPU without `id` raises KeyError, the whole listing raises |
| RunPodGpus.EligibleSound | runpod_client.py:117-129 | every listed GPU is `Normalize` of a qualifying input entry with the same id and VRAM: its name, price and cloud flags are that entry's |
| RunPodGpus.EligibleComplete | runpod_client.py:117-129 | every input entry with at least 8 GB of VRAM is listed |
| RunPodGpus.AvailableGpusSpec | runpod_client.py:91-133 | GraphQL errors raise "GraphQL error: ..."; otherwise the list is exactly the qualifying GPUs, cheapest first, equal prices in input order |
| RunPodGpus.AddConsistent | runpod_client.py:155-156 | adding a GPU to the ranking records its id as used and keeps ranked ids and used ids in step |
| RunPodGpus.PreferredPassSpec | runpod_client.py:151-157 | the preferred pass adds at most one GPU per preferred name, no id twice, each GPU from the given window and matching some preferred name case-insensitively |
| RunPodGpus.PreferredPicks | runpod_client.py:151-157 | the `i`-th preferred name appends the first GPU of the window that matches it and whose id is not yet used, or nothing when there is none; the picks of earlier names stay in front, so picks come in preference-list order |
| RunPodGpus.FillPassSpec | runpod_client.py:159-163 | the fill pass extends the ranking with every GPU whose id is not yet used, and with nothing else |
| RunPodGpus.FillTail | runpod_client.py:159-163 | the fill pass extends the preferred picks; any two GPUs it appends occur in that order in its input, so they are in price order when the input is |
| RunPodGpus.RankingSpec | runpod_client.py:147-165 | the ranking has no id twice, only input GPUs and every input id; it starts with the preferred picks from the ten cheapest, and the rest follow in price order when the input is sorted by price |
| RunPodGpus.AvailableGpus | runpod_client.py:91-133 | a raised request raises; GraphQL errors raise "GraphQL error: ..."; otherwise the filter's error, or its GPUs sorted by price with the same elements |
| RunPodGpus.RankedGpus | runpod_client.py:140-165 | `get_ranked_gpus` returns only available GPUs, no id twice, at most `max_results` and a prefix of the ranking; it is empty exactly when no GPU qualified |
| RunPodPods.PortUrl | runpod_client.py:284-289 | a port is probed exactly when it is the API port with a truthy IP and public port; the URL is `http://ip:port` |
| RunPodPods.PortsAsWritten | runpod_client.py:279-280 | as written, a pod whose `runtime` is null makes the port read raise |
| RunPodPods.PodPorts | runpod_client.py:279-280 | corrected: only a failed query raises; a null or missing runtime, or missing ports, reads as no ports yet |
| RunPodPods.StopPod | runpod_client.py:256-269 | `stop_pod` returns True exactly when the mutation reported no errors, and raises "Failed to stop pod: ..." otherwise |
| RunPodPods.PickPreferred | runpod_client.py:153-157 | the inner loop picks the first unused GPU of the window matching the preferred name |
| RunPodPods.RankPreferred | runpod_client.py:152-157 | the preferred loop computes the preferred pass over the window |
| RunPodPods.FillRemaining | runpod_client.py:160-163 | the fill loop computes the fill pass |
| RunPodPods.RunPodClient.constructor | runpod_client.py:65-71 | a new client has no active pod and no pod URL |
| RunPodPods.RunPodClient.GetAvailableGpus | runpod_client.py:91-133 | the listing loop and sort compute the specified GPU listing |
| RunPodPods.RunPodClient.GetRankedGpus | runpod_client.py:140-165 | a failed listing propagates; otherwise the result is the preference ranking cut to `max_results` |
| RunPodPods.RunPodClient.CreatePod | runpod_client.py:177-223 | errors raise "Failed to create pod: ..." and leave the active pod alone; otherwise the pod is returned and its id becomes the active pod |
| RunPodPods.RunPodClient.TryCreatePod | runpod_client.py:167-175 | a capacity error (message containing "resources" or "not have") gives None; any other error propagates |
| RunPodPods.RunPodClient.ScanPorts | runpod_client.py:283-299 | the port scan returns the URL of the first probed port whose health answers 200 |
| RunPodPods.RunPodClient.WaitForPodReady | runpod_client.py:271-304 | for a given reading of the replies (as written, or corrected), the first poll whose read raises or finds a healthy API port decides the outcome, with a timeout when none does; a returned URL becomes the pod URL, and a failure leaves it unchanged |
| RunPodPods.PodWaitUrl | runpod_client.py:283-297 | a returned URL is `http://ip:public_port` of a polled API port whose health answered 200 |
| RunPodPods.AsWrittenStartingPodRaises | runpod_client.py:279-280 | as written, a first poll with a null runtime ends the wait with the AttributeError, not a timeout |
| RunPodPods.AsWrittenSuccessAgrees | runpod_client.py:276-302 | whenever the wait as written succeeds, the corrected reading succeeds with the same URL |
| RunPodPods.StartingPodWaits | runpod_client.py:276-302 | corrected, a poll with a null runtime just moves on to the next poll |
| RunPodPods.StartingPodAbortsWait | runpod_client.py:271-304 | for a pod that is starting and then healthy, the code as written raises while the corrected reading returns the pod's URL |
| RunPodJobs.NewJobPayload | runpod_client.py:336-345 | `input_url` and `all_stems` are always sent; `interval_cut` and `job_id` are sent exactly when truthy |
| RunPodJobs.WaitForModels | runpod_client.py:469-478 | one status request, then up to 60 more until models are ready; a raised request propagates; never-ready is not an error; at most 61 requests |
| RunPodJobs.WaitForJob | runpod_client.py:378-406 | "completed" returns the job, "failed" raises with its error, a raised request propagates, a spent budget times out; the progress lines printed are the changes of the progress text before that poll |
| RunPodJobs.PollUntilStop | runpod_client.py:385-404 | the polling loop stops at the first terminal poll (or after the budget), having printed exactly the changes of the progress text before it |
| RunPodJobs.ShowProgress | runpod_client.py:400-402 | a progress text is printed exactly when it differs from the last one printed, and then becomes the last one |
| RunPodJobs.PrintedSpec | runpod_client.py:396-402 | printed progress never repeats a line twice in a row, never starts with the empty text, prints only texts seen, and ends on the latest text |
| RunPodJobs.WaitCompletedAtFirstStop | runpod_client.py:385-394 | a returned job is the first terminal poll, and it says "completed" |
| RunPodSeparate.Provision | runpod_client.py:443-458 | GPU types are tried in rank order; a capacity error or an empty reply moves on, and a pod or any other error ends the loop |
| RunPodSeparate.RunJob | runpod_client.py:463-497 | for a given reading of the pod's replies, the `try` block's outcome is the pod wait, models wait, submission, job wait and download in sequence |
| RunPodSeparate.Rent | runpod_client.py:443-503 | for a given reading of the pod's replies: GPU types are tried in rank order up to the first that ends the search; none gives exit 1, a non-capacity error or a pod without id aborts without a stop; otherwise the outcome is the job phase's, the created pod is the one stopped, once unless kept, and a job is submitted exactly when the pod and the models became ready |
| RunPodSeparate.CmdSeparate | runpod_client.py:425-503 | with the pod's replies read as the code reads them: no key, no GPU or no capacity exits 1; a pod without id is a KeyError before the `try`; otherwise the created pod is the one stopped, exactly once unless kept, the outcome is the job phase's, and a stop failure replaces it |
| RunPodSeparate.CompletedRunNeedsEveryStage | runpod_client.py:463-503 | a completed run (corrected reading, which covers every run completed as written) had a healthy API port, a job id, a "completed" poll, a download, and a successful stop unless kept |
| RunPodSeparate.StartingPodAbortsCommand | runpod_client.py:463-503 | as written, a pod first polled with a null runtime makes the `try` block raise the AttributeError, so the command never completes |
| RunPodSeparate.AsWrittenPhaseAgrees | runpod_client.py:463-497 | the job phase as written and corrected differ only when the pod wait as written fails, so a run the code completes also completes when corrected |
| RunPodSeparate.StopFailureWins | runpod_client.py:499-503 | an exception from stopping the pod is what the command reports, whatever the job did |
| JobServer.NewJob | server.py:186-195 | a new job is pending and well formed |
| JobServer.Finished | server.py:130-139 | exit code 0 completes the job with a completion time; anything else fails it with the output, "Unknown error" or the launch exception's message |
| JobServer.Without | server.py:305 | removing an id keeps exactly the other ids |
| JobServer.WithoutDistinct | server.py:305 | removing an id keeps the id list duplicate-free |
| JobServer.CountsBounded | server.py:159-160 | the running and completed counts together never exceed the number of jobs |
| JobServer.ListingSound | server.py:271-284 | each listed entry is a job of the window, with its status, creation and completion times, matching the filter |
| JobServer.ListingUnfiltered | server.py:275-282 | without a filter, the listing has one entry per id of the window, in order |
| JobServer.ListingFiltered | server.py:275-282 | with a status filter, the listing names exactly the window's jobs in that status, in window order |
| JobServer.ListWindow | server.py:275-282 | the loop over the window builds exactly the filtered listing |
| JobServer.JobStore.constructor | server.py:43 | the job table starts empty |
| JobServer.JobStore.CreateJob | server.py:170-210 | an existing id is 409 before the models check's 503; otherwise a pending job is added under the requested or generated id, at the end of the order |
| JobServer.JobStore.StartRun | server.py:104-105 | the background run marks an existing job running with its start time; a job deleted meanwhile leaves the table unchanged |
| JobServer.JobStore.FinishRun | server.py:120-139 | the run's result updates only that job, as `Finished` says; a job deleted meanwhile leaves the table unchanged |
| JobServer.JobStore.GetStatus | server.py:155-168 | the running and completed counts are those of the table, and together never exceed its size |
| JobServer.CountStates | server.py:159-160 | the counting loop finds exactly the number of listed jobs that are running and that are completed |
| JobServer.JobStore.GetJobStatus | server.py:212-237 | an unknown id is 404; otherwise the status and error are the job's; a running or completed job with a progress file reports its state, tasks, details and elapsed time, and every other job reports none of them |
| JobServer.JobStore.GetResult | server.py:239-269 | unknown job is 404, a job that is not completed is 400, a missing file is 404; only a completed job's existing file is served |
| JobServer.JobStore.ListJobs | server.py:271-284 | the listing covers the last `limit` jobs in insertion order, filtered by status; the total is the table size |
| JobServer.JobStore.DeleteJob | server.py:286-307 | unknown is 404, running is 400 (no change); otherwise exactly that job leaves the table and the order |
| JobServer.ZeroLimitListsAll | server.py:275 | `limit=0` lists every job |
| JobServer.PositiveLimitListsRecent | server.py:275 | a positive limit lists at most `limit` jobs, all among the most recent |
| ConcurrentInstances.RecordsOrdered | test_concurrent_instances.py:111-113 | records come in launch order: indices strictly increase and stay below the number of launches |
| ConcurrentInstances.RecordsSound | test_concurrent_instances.py:75-84 | every record is a successful launch's: its new contract and the offer the round robin gave that launch |
| ConcurrentInstances.RecordsComplete | test_concurrent_instances.py:69-84 | every successful launch has a record |
| ConcurrentInstances.InstanceTester.constructor | test_concurrent_instances.py:32-36 | the tester starts with no records, zero counts and round-robin position 0 |
| ConcurrentInstances.InstanceTester.GetNextOffer | test_concurrent_instances.py:49-53 | the offer at the round-robin position modulo the list length, and the position advances by one |
| ConcurrentInstances.InstanceTester.LaunchInstance | test_concurrent_instances.py:55-91 | one offer is used per launch; a success counts once and appends its record, a failure counts once and records nothing; counts always add up to launches |
| ConcurrentInstances.InstanceTester.LaunchAll | test_concurrent_instances.py:111-113 | after k launches the records are exactly those of the successful launches, and the round-robin position advanced by k |
| ConcurrentInstances.InstanceTester.SaveInstances | test_concurrent_instances.py:93-97 | the registry then holds every record |
| ConcurrentInstances.InstanceTester.Run | test_concurrent_instances.py:99-154 | `num_instances` launches; 0 raises ZeroDivisionError; no success saves nothing; otherwise the records are grouped by GPU and saved |
| ConcurrentInstances.WithGpuSpec | test_concurrent_instances.py:133-139 | a GPU's group holds exactly that GPU's records |
| ConcurrentInstances.WithGpuAbsent | test_concurrent_instances.py:137-138 | a GPU without records has an empty group |
| ConcurrentInstances.GroupByGpu | test_concurrent_instances.py:133-139 | one group per GPU name that occurs, each holding that GPU's records in launch order |
| ConcurrentInstances.GroupsPartition | test_concurrent_instances.py:133-145 | every record is in its GPU's group, and a group holds only its GPU's records |
| ConcurrentInstances.SaveOnInterrupt | test_concurrent_instances.py:233-238 | on interrupt the records are saved exactly when there are any |
| ConcurrentInstances.NewTester | test_concurrent_instances.py:24-47 | no API key or no ranked offer raises; otherwise a fresh tester over the 20 best offers |
| ConcurrentInstances.DestroyCalls | test_concurrent_instances.py:184-191 | at most one destroy call per registry entry |
| ConcurrentInstances.SavedRegistryDestroysAll | test_concurrent_instances.py:184-191 | a registry written by `save_instances` destroys every recorded id, in order |
| ConcurrentInstances.DestroyAllInstances | test_concurrent_instances.py:157-203 | a missing or empty registry, or no key, changes nothing; otherwise every readable entry is destroyed and counted a success, success plus failed equals the entries, and the file is removed |
| ConcurrentInstances.EntryPoint | test_concurrent_instances.py:206-238 | no key exits 1; `--destroy-all` runs the destroyer; otherwise the registry ends up holding the records of the launches made (before any interrupt), unless there were none |
| ConcurrentInstances.Launch | test_concurrent_instances.py:229-238 | `run`, or the launches before an interrupt followed by the save-if-any handler |

## Left out

- HTTP and GraphQL transport, request headers and authentication, and request payload fields the replies do not depend on (image, disk, ports) are not modelled. Every reply is an input.
- Real time, `sleep`, the timeout arguments and elapsed-time printing are not modelled. A wait's time budget is the length of its poll script.
- Console output is not modelled, apart from the progress lines of the RunPod job wait. Vast log streaming is modelled by the offsets it fetches and the polls where progress would print, not by the text.
- Floating-point arithmetic is not modelled. Prices, VRAM and reliability are exact reals, and the percentage display is left out.
- Environment variables, argparse, `load_dotenv`, and the commands `cmd_list_offers`, `cmd_gpus`, `cmd_destroy`, `cmd_stop`, `health_check` and `find_cheapest_gpu` are not modelled; the core never calls them.
- `search_offers`'s `gpu_name` filter is not modelled. No core caller passes it. As written it would raise TypeError, because `params["q"]` is already a JSON string.
- JSON nulls are modelled only where the code's behaviour depends on them: `lowestPrice`, pod `runtime`, and instance and offer ids. Other null values, and bodies of the wrong JSON type, are treated like missing keys or left out.
- A KeyError on `status["status"]` in the Vast job wait is not modelled: replies always carry a status. The same holds for a null `ports` in a Vast instance or pod runtime, and for a null `pod` object.
- Downloads are one outcome each: success or the message they raised. Streaming, file writes, `mkdir` and the output path are not modelled.
- The server's subprocess, the progress file, the models-ready file check, uuid generation and `datetime.now()` are inputs to the model. So is the set of files present in a job directory. `shutil.rmtree` and the `/health` endpoint are not modelled.
- Interleavings of FastAPI requests with background tasks are modelled only at the two points where the background task touches `JOBS` (`StartRun`, `FinishRun`). A job deleted in between makes those steps change nothing. In Python they raise KeyError inside the background task, which nobody observes.
- A KeyboardInterrupt is modelled only for the batch launcher, and only between two launches.
- Lower-casing is ASCII only. Python's full Unicode `lower()` is not modelled.
- The Vast `ssh_*` and `direct_port_*` instance fields are not modelled; `gpu_name` and `cost_per_hour` are carried along but never read. Registry entries keep only the fields the destroyer reads, plus those `save_instances` writes.

## Findings

| source | as written | input that shows it | evidently intended | confidence | as-written member | corrected member |
|---|---|---|---|---|---|---|
| runpod_client.py:279-280 | `pod.get("runtime", {})` returns None when the API reports `"runtime": null` (a pod that has not started yet), and the next `.get("ports", [])` raises AttributeError, which ends `wait_for_pod_ready` | polls `runtime: null`, then a runtime whose API port 8185 is at 10.0.0.1:40000 and healthy | a null runtime means "no ports yet": keep polling and return `http://10.0.0.1:40000` | medium, not executed | RunPodPods.StartingPodAbortsWait | RunPodPods.StartingPodWaits |
