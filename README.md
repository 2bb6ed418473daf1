# cft-deploy in Dafny

This project models the deployment-decision and parameter-resolution layer of
cft-deploy. cft-deploy is a command-line tool that deploys AWS CloudFormation
stacks from a YAML manifest. The model covers four parts:

- **The manifest (`CFManifest`).** It loads the document and overrides the
  region. It resolves the stack parameters from four sources: static values,
  dependent stacks, sourced `alias.section.id` references and command-line
  overrides. It then builds the change request (`build_cft_payload`),
  validates, and creates a stack.
- **The stack controller (`CFStack`).** This covers the status tables, `get`
  (which asks by StackId once one is known), and the parameter, output and
  paginated resource projections. It also covers the event filter that keeps
  events newer than a cursor, and the create and update payloads with the
  classification of their replies.
- **The template helpers (`CFTemplate`).** These are `s3://bucket/key` names
  and `parse_s3_url`, provenance naming, validation and its error
  classification, and the parameter text, template line and substitutions of
  a generated manifest.
- **The command-line decisions.** These are `k=v` override arguments,
  `print_events` with its cursor and colour buckets, and the
  create / update / abort decision of `cft_deploy`. They also include the
  poll loop over a finite trace of provider answers, and the success test of
  `cft_delete`.

Every call to the provider is a parameter rather than I/O. The parameters are:

- `describe` for `describe_stacks`, by name or StackId;
- `listing` for the pages of `list_stack_resources`;
- `updateApi` and `createApi` for `update_stack` and `create_stack`, each a
  response or a ClientError;
- `api` for `validate_template`.

In the poll loops, `raw[i]` is the i-th reply of `describe_stack_events` and
`statuses[i]` is the i-th status `get_status` reads.

Python exceptions are values of `Faults.Fault`, returned through
`Result<_, Fault>`. Python dicts are sequences of pairs that keep insertion
order (`PyDict`). YAML values are `PyValue.Value`. `json.dumps` is
`PyValue.Dumps`, and `PyValue.Parse` is its proven inverse.

Modules, one per file:

- `Wrappers`, `Faults`, `Strings`, `PyDict`, `PyValue`;
- `Status` (stack.py:16-25);
- `Template` (template.py);
- `Stack` (stack.py);
- `Manifest` (manifest.py);
- `EntryPoints` (entry_points.py).

Source-side state lives in classes with the fields the source updates:
`CFTemplate`, `CFStack` and `CFManifest`. The loops of the source are
methods with loop invariants. Each method is proved equal to a recursive
specification function, and the lemmas state the properties of that
function.

## Model

| member | source | states |
|---|---|---|
| Status.ResourceBucket | cftdeploy/entry_points.py:160-167 | an event status is uncoloured (Plain) exactly when it is in none of the three resource tables |
| Status.BucketIsMembership | cftdeploy/entry_points.py:160-167 | the Temp, Bad and Good buckets are exactly membership in ResourceTempStatus, ResourceBadStatus and ResourceGoodStatus |
| Status.ResourceTablesDisjoint | cftdeploy/stack.py:16-19 | the Good, Bad and Temp resource tables are pairwise disjoint |
| Status.StackTempDoneDisjoint | cftdeploy/stack.py:20-24 | no stack status is both in StackTempStatus and in StackDoneStatus |
| Status.GoodIsDone | cftdeploy/stack.py:20-25 | StackGoodStatus is inside StackDoneStatus and outside StackTempStatus |
| Status.DoneButNotGood | cftdeploy/stack.py:23-25 | ROLLBACK_COMPLETE, UPDATE_ROLLBACK_COMPLETE and DELETE_COMPLETE are done but not good |
| Status.DeleteInProgressIsBad | cftdeploy/stack.py:17-19 | DELETE_IN_PROGRESS is shown as a bad resource status, although it is in progress |
| Template.ParseS3Url | cftdeploy/template.py:168-180 | every failure is UnboundLocalError on `bucket`, so the `(None, None)` returns are unreachable |
| Template.S3UrlRoundTrip | cftdeploy/template.py:151-180 | `parse_s3_url("s3://" + b + "/" + k) == (b, k)` for a bucket without '/' and one-line names; the key may hold '/' |
| Template.S3UrlTrailingNewline | cftdeploy/template.py:170 | `$` also matches before one final newline, which the key leaves out |
| Template.ParseS3UrlOnlyNames | cftdeploy/template.py:170-180 | everything `parse_s3_url` accepts is `s3://b/k`, possibly followed by one newline, with b free of '/' |
| Template.ParsedParts | cftdeploy/template.py:170-173 | the bucket is the text up to the first '/' after `s3://`, and the key is the rest without a final newline |
| Template.CFTemplate.constructor | cftdeploy/template.py:18-30 | a template keeps its body, region, filename and S3 name |
| Template.CFTemplate.Name | cftdeploy/template.py:32-38 | `__str__` gives the S3 name if set, else the filename, else "A Template has no name" |
| Template.CFTemplate.Read | cftdeploy/template.py:41-45 | a missing file is FileNotFoundError; otherwise a template with that body and filename and no S3 name |
| Template.CFTemplate.Download | cftdeploy/template.py:48-60 | a ClientError is raised again; otherwise the body comes with the S3 name `s3://bucket/key` and the given region |
| Template.CFTemplate.Upload | cftdeploy/template.py:151-165 | on success the S3 name becomes `s3://bucket/key`, `__str__` returns it and `parse_s3_url` gives back (bucket, key); on failure nothing changes |
| Template.CFTemplate.ValidateRequest | cftdeploy/template.py:64-70 | the body is sent when a filename is set, else the https URL built from the parsed S3 name; with neither, TypeError |
| Template.CFTemplate.Validate | cftdeploy/template.py:62-80 | a response is returned; a ValidationError with the 51200 message raises CFTemplateTooLargeError, any other ValidationError gives None, and other errors are raised again |
| Template.TooLargeIsRaised | cftdeploy/template.py:72-75 | the too-large message anywhere in a ValidationError raises CFTemplateTooLargeError |
| Template.S3TemplateValidatedByUrl | cftdeploy/template.py:117-123 | a template named `s3://b/k` is validated, and written as a template line, through `https://s3.amazonaws.com/b/k` |
| Template.Blocks | cftdeploy/template.py:96-104 | one comment and key block per declared parameter, in order |
| Template.ParameterYamlHasKeyLine | cftdeploy/template.py:96-104 | every declared parameter's `key: default` line (or `key: `) is in the generated text |
| Template.CFTemplate.ParameterText | cftdeploy/template.py:95-104 | the accumulating loop produces exactly the blocks one after the other |
| Template.CFTemplate.TemplateLine | cftdeploy/template.py:117-123 | `LocalTemplate: <file>` when a filename is set, the warning line when there is no source |
| Template.Substitute | cftdeploy/template.py:126-132 | substitutions never touch the parameter text, template line or description |
| Template.SubstitutionsReplaceDefaults | cftdeploy/template.py:126-132 | a given stack_name, termination_protection or region replaces the default, and the others keep it |
| Template.CFTemplate.Fill | cftdeploy/template.py:106-145 | a missing Description is KeyError; the write is refused exactly when the file exists without overwrite; the written values carry the parameter text |
| Template.CFTemplate.GenerateManifest | cftdeploy/template.py:82-145 | generate_manifest is validate, then the parameter loop, then fill (None when validation fails) |
| Template.CFTemplate.Diff | cftdeploy/template.py:147-149 | raises NotImplementedError |
| Stack.Refresh | cftdeploy/stack.py:94-111 | a failed or empty `get` leaves the attributes alone; a found stack stores its StackId and record |
| Stack.RefreshResult | cftdeploy/stack.py:101-111 | a ValidationError becomes CFStackDoesNotExistError, other errors are raised again, no stacks gives None, else the StackId |
| Stack.RefreshThenById | cftdeploy/stack.py:97-100 | once a stack was found, `get` asks by its StackId |
| Stack.StatusFreshOrStale | cftdeploy/stack.py:208-211 | `get_status` reads the fresh status, or the stale one when the reply held no stack |
| Stack.Gather | cftdeploy/stack.py:161-168 | the projection loop builds exactly the dict of the records that have a value |
| Stack.CollectUnique | cftdeploy/stack.py:161-168 | the projected dict has each key once |
| Stack.CollectHasKey | cftdeploy/stack.py:161-168 | a key is present exactly when some record with that key has a value |
| Stack.CollectGetLast | cftdeploy/stack.py:161-168 | the last record with a value for a key gives that key's value |
| Stack.ParametersPreferResolved | cftdeploy/stack.py:163-168 | a parameter maps to its ResolvedValue when present, else to its ParameterValue |
| Stack.ParametersWithoutValueOmitted | cftdeploy/stack.py:163-168 | a parameter with neither value is left out |
| Stack.OutputsWithValue | cftdeploy/stack.py:175-179 | an output is present exactly when one with that key has an OutputValue |
| Stack.ResourcesOnlyGood | cftdeploy/stack.py:191-200 | a logical id is present exactly when it has a physical id and a status in ResourceGoodStatus |
| Stack.ProjectionsUnique | cftdeploy/stack.py:158-202 | parameters, outputs and resources each map every key once |
| Stack.Reverse | cftdeploy/stack.py:230-233 | `list.reverse()` puts element i at position n-1-i |
| Stack.FirstMatch | cftdeploy/stack.py:227-232 | the scan stops at the first event whose id is the cursor, or at the end |
| Stack.EventsSinceAll | cftdeploy/stack.py:227-234 | with no cursor, or one not listed, every event comes back, oldest first |
| Stack.EventsSinceBeforeCursor | cftdeploy/stack.py:227-232 | only the events before the cursor's come back, reversed, and none carries the cursor's id |
| Stack.EventsSinceTail | cftdeploy/stack.py:213-234 | with the newest seen event as cursor, exactly the newly added events come back, oldest first |
| Stack.StripCreateOnlyGet | cftdeploy/stack.py:129-135 | `update` drops TimeoutInMinutes, OnFailure and EnableTerminationProtection and keeps every other key's value |
| Stack.ClassifyUpdate | cftdeploy/stack.py:137-156 | the StackId is returned exactly for a reply that has one; True exactly for a ValidationError whose text holds "No updates are to be performed."; None otherwise |
| Stack.NoUpdatesIsSuccess | cftdeploy/stack.py:146-150 | a ValidationError mentioning "No updates are to be performed." counts as success |
| Stack.ParameterEntries | cftdeploy/stack.py:56-59 | one `{ParameterKey: str(k), ParameterValue: str(v)}` per param, in order; a list or dict value is rendered as JSON text (see Left out) |
| Stack.ParameterEntriesReadBack | cftdeploy/stack.py:56-59 | each create parameter reads back its key and str(value) (JSON text for a list or dict, see Left out) and has no UsePreviousValue |
| Stack.CreatePayloadFields | cftdeploy/stack.py:45-79 | no payload exactly when neither template nor S3Template is given; otherwise it has unique keys, the StackName and Capabilities, and TemplateBody wins over TemplateURL |
| Stack.CreatePayloadOptional | cftdeploy/stack.py:53-68 | Parameters, StackPolicyBody (json.dumps), Tags, TerminationProtection, TimeoutInMinutes and OnFailure appear exactly when given |
| Stack.BuildCreatePayload | cftdeploy/stack.py:45-79 | the key-by-key construction builds that payload |
| Stack.BuildParameterEntries | cftdeploy/stack.py:56-59 | the loop over `params` builds exactly the ParameterEntries list, record by record in order |
| Stack.CFStack.constructor | cftdeploy/stack.py:31-40 | a new handle has a name and region and no attribute from the provider yet |
| Stack.CFStack.Get | cftdeploy/stack.py:94-111 | the result and the new attributes are those of Refresh |
| Stack.CFStack.GetStatus | cftdeploy/stack.py:208-211 | refresh, then StackStatus from the stored record |
| Stack.CFStack.GetParameters | cftdeploy/stack.py:158-169 | refresh, then the parameter projection of the stored Parameters |
| Stack.CFStack.GetOutputs | cftdeploy/stack.py:171-180 | refresh, then the output projection of the stored Outputs |
| Stack.CFStack.GetResources | cftdeploy/stack.py:182-202 | every page is concatenated into `resources`, then projected; no StackId gives AttributeError |
| Stack.CFStack.GetStackEvents | cftdeploy/stack.py:213-234 | the events of the stored StackId since the cursor |
| Stack.CFStack.Update | cftdeploy/stack.py:117-156 | no manifest or payload gives None without a call; a False payload gives TypeError; otherwise the stripped payload is sent and its reply classified |
| Stack.CFStack.Create | cftdeploy/stack.py:45-92 | False without a call when there is no template; the StackId or None otherwise; the template or S3 name given is recorded |
| Stack.CFStack.Delete | cftdeploy/stack.py:113-115 | the delete names the stored StackId (AttributeError before one is stored) |
| Stack.CFStack.DetectDrift | cftdeploy/stack.py:204-206 | raises NotImplementedError |
| Stack.CFStack.CreateChangeset | cftdeploy/stack.py:236-238 | raises NotImplementedError |
| Stack.CFStack.DescribeChangeset | cftdeploy/stack.py:240-242 | raises NotImplementedError |
| Stack.CFStack.ListChangesets | cftdeploy/stack.py:244-246 | raises NotImplementedError |
| PyValue.DumpsRoundTrip | cftdeploy/manifest.py:107 | the JSON text of any value parses back to that value |
| Manifest.CoerceCases | cftdeploy/manifest.py:104-109 | a bool becomes exactly "true"/"false", a list becomes JSON text that reads back to the list, and anything else goes through str() |
| Manifest.StaticPresent | cftdeploy/manifest.py:96-110 | a static parameter is present exactly when some entry for it is not null |
| Manifest.StaticValue | cftdeploy/manifest.py:96-110 | a key's static value is the coerced value of its last non-null entry |
| Manifest.StaticPhase | cftdeploy/manifest.py:96-110 | the static loop gives that dict; a missing Parameters is KeyError, and a null one gives no parameters |
| Manifest.DependsOnStacksRefused | cftdeploy/manifest.py:114-116 | a DependsOnStacks key raises NotImplementedError before any dependent lookup |
| Manifest.DependentsStuck | cftdeploy/manifest.py:119-132 | the first failing lookup's exception ends resolution |
| Manifest.DependentMissing | cftdeploy/manifest.py:121-125 | a dependent stack whose `get` finds nothing raises CFStackDoesNotExistError |
| Manifest.DependentsFound | cftdeploy/manifest.py:119-126 | after the loop every alias is mapped, and every mapped stack has its StackId |
| Manifest.LookUpDependents | cftdeploy/manifest.py:121-126 | the lookup loop computes the dependent-stack map |
| Manifest.DependentPhase | cftdeploy/manifest.py:118-132 | an absent or null DependentStacks gives no stacks; otherwise the lookup loop runs |
| Manifest.ReferenceParts | cftdeploy/manifest.py:136 | `alias.section.id` without other dots splits into its three parts |
| Manifest.FindCases | cftdeploy/manifest.py:136-163 | not three parts is ValueError; an unknown alias or section is skipped; in Parameters, Outputs and Resources an id that is there gives its value and a missing id is StackLookupException; a failed lookup's error, and AttributeError for Resources of a stack without a StackId, escape |
| Manifest.SourceSets | cftdeploy/manifest.py:141-158 | a resolved reference sets its key to the found value |
| Manifest.SourcedStuck | cftdeploy/manifest.py:134-163 | the first failing sourced entry's exception ends resolution |
| Manifest.SourcedOther | cftdeploy/manifest.py:134-163 | a key with no sourced entry keeps its static value |
| Manifest.SourcedSplit | cftdeploy/manifest.py:134-163 | the loop over all entries is the loop over a prefix, then over the rest from the state it reached |
| Manifest.SourcedLastWins | cftdeploy/manifest.py:134-168 | when the last sourced entry for a key resolves to a value and no override names the key, the resolved parameters give the key that value, whatever its static value was |
| Manifest.SourcedUnique | cftdeploy/manifest.py:134-163 | sourcing keeps each key once |
| Manifest.ResolveSourced | cftdeploy/manifest.py:135-163 | the sourced loop computes that resolution |
| Manifest.SourcedPhase | cftdeploy/manifest.py:134-163 | an absent or null SourcedParameters changes nothing; otherwise the sourced loop runs |
| Manifest.OverrideWins | cftdeploy/manifest.py:166-168 | the last override for a key gives its value |
| Manifest.OverrideKeeps | cftdeploy/manifest.py:166-168 | a key not overridden keeps its value |
| Manifest.OverriddenUnique | cftdeploy/manifest.py:166-168 | overriding keeps each key once |
| Manifest.ApplyOverride | cftdeploy/manifest.py:166-168 | the override loop computes the overridden dict |
| Manifest.ResolvePrecedence | cftdeploy/manifest.py:93-173 | each key appears once; an override beats sourced and static values; a key neither overridden nor sourced keeps its static value (a sourced value over the static one is SourcedLastWins) |
| Manifest.ParameterList | cftdeploy/manifest.py:170-173 | `self.params` is one `{ParameterKey, ParameterValue, UsePreviousValue: False}` record per resolved key, in order |
| Manifest.ParameterListUnique | cftdeploy/manifest.py:170-173 | no two records of `self.params` share a ParameterKey |
| Manifest.BuildParameterList | cftdeploy/manifest.py:170-173 | the loop over the resolved dict builds exactly that record list, in key order |
| Manifest.TimeoutOfDigits | cftdeploy/manifest.py:194-195 | TimeOut keeps only its digits, so "30m" gives 30 |
| Manifest.PolicyBodyReadBack | cftdeploy/manifest.py:179-199 | StackPolicyBody is the JSON of `{"Statement": policy}` and reads back to it |
| Manifest.TagList | cftdeploy/manifest.py:211-213 | tags become `{Key, Value}` records in mapping order |
| Manifest.AppendTags | cftdeploy/manifest.py:211-213 | the tag loop gives that list; no Tags gives none, and a non-mapping is AttributeError |
| Manifest.PayloadFields | cftdeploy/manifest.py:177-215 | the payload has unique keys; StackName, Parameters, the two Capabilities, Tags, TerminationProtection, TimeOut, OnFailure and StackPolicyBody come from the document exactly as the source copies them |
| Manifest.PayloadTemplate | cftdeploy/manifest.py:201-208 | the payload has exactly one of TemplateBody and TemplateURL |
| Manifest.PayloadTemplateChoice | cftdeploy/manifest.py:201-208 | False exactly when neither LocalTemplate nor S3Template is present; LocalTemplate without a read template is AttributeError; LocalTemplate's body wins over the S3 URL |
| Manifest.StackPolicyRequired | cftdeploy/manifest.py:179-181 | a manifest without StackPolicy fails with KeyError before the later guard |
| Manifest.CreateStackCatches | cftdeploy/manifest.py:71-76 | a missing dependent stack or a ClientError during create_stack gives None |
| Manifest.CFManifest.constructor | cftdeploy/manifest.py:19-52 | a manifest holds its document, stack name, region and template, and no params yet |
| Manifest.CFManifest.Load | cftdeploy/manifest.py:19-52 | a non-mapping, or a missing StackName or Region, is an error; a region given overrides and is written into the document; LocalTemplate is read |
| Manifest.CFManifest.OverrideOption | cftdeploy/manifest.py:54-56 | the option is set in the document, overwriting |
| Manifest.CFManifest.FetchParameters | cftdeploy/manifest.py:90-175 | on success `self.params` is rebuilt from the inputs alone, so repeated calls give the same list; on error it is left alone |
| Manifest.CFManifest.BuildCftPayload | cftdeploy/manifest.py:177-215 | the key-by-key construction builds the specified payload, errors and all |
| Manifest.CFManifest.Validate | cftdeploy/manifest.py:78-88 | both template keys give False before anything is resolved; otherwise fetch, then build |
| Manifest.CFManifest.CreateStack | cftdeploy/manifest.py:58-76 | a new stack handle for a created stack; None when creation failed or a missing stack or ClientError was caught; other errors escape |
| EntryPoints.ProcessOverrideParams | cftdeploy/entry_points.py:476-485 | the loop gives None without arguments and otherwise the parsed dict |
| EntryPoints.OverridesStuck | cftdeploy/entry_points.py:481-483 | the first malformed argument's error ends the loop |
| EntryPoints.OverrideArgParts | cftdeploy/entry_points.py:482 | `k=v` with no other '=' splits into k and v |
| EntryPoints.OverridesCollect | cftdeploy/entry_points.py:481-483 | with well-formed arguments the result is the pairs, later keys overwriting earlier ones |
| EntryPoints.OverridesLastWins | cftdeploy/entry_points.py:481-483 | each key appears once, with the value of its last argument |
| EntryPoints.OverrideMalformed | cftdeploy/entry_points.py:482 | an argument without exactly one '=' fails with ValueError at the unpack |
| EntryPoints.ColouredCases | cftdeploy/entry_points.py:160-167 | Temp statuses are yellow, Bad red and Good green; any other status is shown uncoloured |
| EntryPoints.EventLines | cftdeploy/entry_points.py:158-173 | one line per event, in order |
| EntryPoints.EventLinesAppend | cftdeploy/entry_points.py:158-173 | printing two runs of events one after the other prints the lines of both, in order |
| EntryPoints.PrintEvents | cftdeploy/entry_points.py:141-174 | the incoming cursor for no events, else the id of the last event listed, which is the newest |
| EntryPoints.CursorAfterSince | cftdeploy/entry_points.py:124-129 | after printing what get_stack_events returns, the cursor is the newest listed event, or unchanged when nothing is new |
| EntryPoints.PollStack | cftdeploy/entry_points.py:124-138 | the poll loop computes the specified end of the trace, and the lines it prints are exactly one per event shown, in order |
| EntryPoints.PollShape | cftdeploy/entry_points.py:126-138 | the loop runs exactly while the status is in StackTempStatus; the exit code is 0 exactly when the final status is in the goal |
| EntryPoints.PollFromShape | cftdeploy/entry_points.py:126-138 | the same, from any point of the loop |
| EntryPoints.ReverseAppend | cftdeploy/entry_points.py:128-129 | reversing a concatenation reverses the order of its parts |
| EntryPoints.NextBatch | cftdeploy/entry_points.py:128-129 | one more batch extends the events shown to the whole reply and moves the cursor to its newest event |
| EntryPoints.PollFromShowsAll | cftdeploy/entry_points.py:124-129 | the same, from any point of the loop |
| EntryPoints.PollShowsEachEventOnce | cftdeploy/entry_points.py:124-129 | when the provider only adds events ahead of the old ones, each event is shown exactly once, oldest first |
| EntryPoints.UpdateFromManifest | cftdeploy/stack.py:117-127 | update(manifest=…) fetches the parameters, builds the payload and updates, letting the manifest's errors escape; the manifest's params become the resolved list, or stay as they were when resolution fails |
| EntryPoints.CreateAndGet | cftdeploy/entry_points.py:111-121 | the create branch: any exception or no stack is exit 1; otherwise the new stack is fetched and watched; the manifest's params become the resolved list, or stay as they were when resolution fails |
| EntryPoints.ChooseRoute | cftdeploy/entry_points.py:93-121 | the get / status / update / create decision, computed step by step on the stack object; the manifest's params are left as they were or become the resolved list |
| EntryPoints.CftDeploy | cftdeploy/entry_points.py:53-138 | interactive or update-stack-policy raises NotImplementedError; a non-empty template URL replaces S3Template (an empty one is falsy and ignored); override errors escape; then the route and the poll decide the exit code; the manifest's params are untouched on the early errors, else left or resolved |
| EntryPoints.DeployNeedsGoodStatusOrForce | cftdeploy/entry_points.py:102-105 | a stack whose status is not in StackGoodStatus is not updated without force |
| EntryPoints.DeployMissingCreates | cftdeploy/entry_points.py:111-121 | CFStackDoesNotExistError from `get` routes to create |
| EntryPoints.DeployEmptyReplyAborts | cftdeploy/entry_points.py:96-99 | a stack not in the reply is exit 1 |
| EntryPoints.DeployFailuresAbort | cftdeploy/entry_points.py:107-118 | an update result of None is exit 1, and so is a create result of None |
| EntryPoints.DeployExitZero | cftdeploy/entry_points.py:132-138 | exit code 0 only after watching a stack whose final status is in StackGoodStatus |
| EntryPoints.CftDelete | cftdeploy/entry_points.py:364-396 | a stack not found is exit 1; other errors escape; no-status exits 0 after the delete; otherwise the poll decides |
| EntryPoints.DeleteExitZero | cftdeploy/entry_points.py:390-396 | exit code 0 means the stack was found, the delete sent, and the final status was DELETE_COMPLETE unless not watched |

## Left out

- Provider calls (describe_stacks, list_stack_resources, describe_stack_events, create_stack, update_stack, delete_stack, validate_template, S3 get/put_object) are parameters. Their responses are abstract inputs, and sessions, clients and profiles are not modelled.
- Reading the YAML manifest, reading template files (a `files` map stands in), writing the generated manifest, and rendering the manifest skeleton with `str.format` (skeleton.py is not part of this model) are left out.
- argparse, logging, `print` and the ANSI colour codes around the final deploy/delete message are left out. Event timestamps are taken as already formatted, and `time.sleep` is dropped.
- `find_by_resource`, `get_template`, `estimate_cost`, `cft_get_events`, `cft_get_output`, `cft_get_resource`, `cft_validate`, `cft_validate_manifest`, `cft_upload`, `cft_generate_manifest`, `cft_diff`, `version` and `do_args` are out of scope. They are thin wrappers around provider calls or printing.
- EntryPoints.PollStack: the provider is a finite trace, so a loop that outlives the trace ends in None. Nothing is modelled about timing. `statuses` are plain strings, so a `get_status` that raises (CFStackDoesNotExistError or a ClientError) inside or after the loop is not modelled; the same holds for the delete poll.
- Stack.Refresh: `__dict__.update` is modelled only for the attributes the model reads: StackId, the record, Parameters and Outputs.
- Manifest.Dependents: the map of dependent stacks holds each stack's name and fetched attributes (a `Handle`), not a `CFStack` object. A later `get_parameters` on it refreshes that value.
- Manifest.Coerce: `str()` of a Python dict is approximated by its JSON text. Floats and dates from YAML are not modelled.
- Strings.Lower and Strings.KeepDigits are ASCII only. Python's `str.lower` and `\D` also cover the rest of Unicode.
- Manifest.CFManifest.Load: a Region that is not a string is refused with TypeError. In the source it goes on to the client constructor.
- Manifest.CFManifest.CreateStack: the new stack is named by the payload's StackName. In the source it is `self.stack_name`, which equals it unless StackName is overridden.
- ClientErrors from `list_stack_resources` and `describe_stack_events` are not modelled.
- Stack.ParameterEntries: Python's `str()` of a list or dict parameter value is its repr (`['a', True]`); the model renders it as JSON text (`["a", true]`) through PyValue.PyStr. Null, booleans, integers and strings are rendered as `str()` does.
- Stack.ParameterEntriesReadBack: reads back PyValue.PyStr of the value, which is Python's `str()` except for lists and dicts, as on the Stack.ParameterEntries line.
- Manifest.CFManifest.CreateStack: botocore's client-side ParamValidationError is modelled only for a StackName that is not a string. Other ill-typed payload members (a tag value that is not a string, a TerminationProtection that is not a boolean) make the source raise out of `create_stack`; here `createApi` can only reply or raise a ClientError, which `create_stack` catches, so for such a payload no exception escapes.
- Stack.CFStack.Update: a ParamValidationError for an ill-typed payload member is not modelled either; it escapes `update` in the source, while here `updateApi` can only reply or raise a ClientError, which `update` classifies, so for such a payload no exception escapes.
- Stack.CFStack.Update: deleting keys from the caller's payload dict in place is modelled by the stripped payload sent. The caller's dict is not shared.
- The `CFStackDoesNotExistError` catch inside `create` and `update` is modelled but is unreachable, because nothing in their `try` raises it.
