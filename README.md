# NetPathAdjust: verified model of the VPC / transit-gateway attachment workflow

`vpc_tgw_inventory.py` is an interactive script. It lists the account's VPCs and the
operator picks one. It then lists the transit gateways and the operator picks one; it then lists
that VPC's subnets and the operator picks a comma-separated list of them. The script attaches
the VPC to the gateway through those subnets. Next it shows the first VPC listing without
the source VPC and the operator picks a destination VPC. From that VPC's subnets the
operator picks one whose CIDR block becomes the route's destination. The operator then
picks a route table of the *source* VPC. The script creates a route to that block through
the gateway and writes a Terraform document, `main.tf`, that describes the attachment and
the route.

This project models that workflow in Dafny. The remote inventory is an abstract value. The
operator's replies are injected as already-parsed integers.

- `results.dfy`: `Option` and `Result`, both usable with `:-`.
- `inventory.dfy`: the listing records (`Vpc`, `TransitGateway`, `Subnet`, `RouteTable`).
  It also holds `Remote`, the remote service as one run sees it: its listings, per VPC for
  subnets and route tables, and whether each of the two mutating calls is rejected.
- `selection.dfy`: index-based selection. `Resolve` resolves one ordinal against the
  listing just shown and fails with `OutOfRange(index, bound)`. `ResolveMany` and
  `ChooseSubnetIds` resolve a list of ordinals in order and keep duplicates.
- `destinations.dfy`: `ExcludeVpc` builds the destination-candidate listing. There are
  lemmas about its membership, length and order.
- `terraform.dfy`: the document. It covers Python's `repr` of a string and of a list of
  strings (used for `subnet_ids`) and `Render`. It also holds a reader (`ParseDocument`)
  that is this model's own inverse of `Render`; the script has no such reader. The
  round-trip lemmas use it to say which value ends up in which block.
- `workflow.dfy`: `Run` is the whole run as a function of the remote and the replies. It
  returns the mutating calls issued, in order, and the outcome. `Session.Execute` is the
  same run written step by step, like `main`. It appends each call to the session's `calls`
  trace as the call is issued, and it is proved to agree with `Run`. Lemmas about `Run`
  give the ordering, provenance and document facts.

Two details follow the code as written:
- The destination listing is the first VPC listing with the source removed on the client
  side (line 102). It is not a second query.
- A rejected route creation stops the run with `MutationFailed(UpdateRouteTable)` and
  writes no document. No separate warning is modelled.

## Model

| member | source | states |
|---|---|---|
| `Selection.Resolve` | vpc_tgw_inventory.py:85 | succeeds exactly when `0 <= index < |listing|` and then returns `listing[index]` unchanged; otherwise fails with `OutOfRange(index, |listing|)`; the same resolution serves lines 90, 108, 113 and 118 |
| `Selection.ResolveEach` | vpc_tgw_inventory.py:95 | succeeds exactly when every index is in range; the result has one entry per index, in index order, entry k being `listing[indices[k]]`; on failure names the first out-of-range index, all indices before it being in range |
| `Selection.ResolveMany` | vpc_tgw_inventory.py:94-95 | as `ResolveEach` but an empty reply fails with `NoIndices`; duplicates are kept, so the length is always the number of indices |
| `Selection.ChooseSubnetIds` | vpc_tgw_inventory.py:94-95 | the subnet-id list has exactly one id per index, in reply order, id k being the `SubnetId` of `subnets[indices[k]]`; fails exactly when the reply is empty or an index is out of range |
| `Selection.ResolveManyAgreesWithResolve` | vpc_tgw_inventory.py:95 | resolving a list succeeds iff each index resolves on its own, position by position gives the same entries, and a failure is the failure of one of its indices |
| `Destinations.ExcludeVpc` | vpc_tgw_inventory.py:102 | no entry of the candidate listing has the source id; an entry is in it iff it is in the VPC listing with a different id; never longer than the VPC listing |
| `Destinations.ExcludeAppend` | vpc_tgw_inventory.py:102 | the filter distributes over concatenation of listings |
| `Destinations.ExcludeLength` | vpc_tgw_inventory.py:102 | the length of the candidate listing is the original length minus the number of entries whose id is the source id |
| `Destinations.ExcludeKeepsOrder` | vpc_tgw_inventory.py:102 | the candidate listing is the VPC listing read at a strictly increasing sequence of positions that contains every position with a different id: all other VPCs are kept, in their relative order |
| `Destinations.TwoVpcsFirstChosen` | vpc_tgw_inventory.py:102 | with `vpc-1`, `vpc-2` listed and `vpc-1` chosen, the candidates are `[vpc-2]` only |
| `Terraform.PyRepr` | vpc_tgw_inventory.py:68 | Python's `repr` of one string (the quote it picks, the escapes it writes; ASCII escapes only, see `Terraform.EscapeChar` under Left out); no contract of its own: its properties are stated by `ParseReprRoundTrip` and `PlainRepr` |
| `Terraform.PyListRepr` | vpc_tgw_inventory.py:68 | Python's `str` of a list of strings, which `{subnet_ids}` inserts; no contract of its own: its properties are stated by `ParseListRoundTrip` and `TwoPlainIdsListed` |
| `Terraform.AttachmentBlock` | vpc_tgw_inventory.py:65-69 | the attachment resource block; no contract of its own: its properties are stated by `ParseAttachmentRoundTrip`, `RenderRoundTrip` and `RenderInjective` |
| `Terraform.RouteBlock` | vpc_tgw_inventory.py:71-75 | the route resource block; no contract of its own: its properties are stated by `ParseRouteRoundTrip`, `RenderRoundTrip` and `RenderInjective` |
| `Terraform.Render` | vpc_tgw_inventory.py:59-76 | reproduces the template of lines 60-76 (provider block, attachment block, route block); no contract of its own: its properties are stated by `ParseReprRoundTrip`, `ParseListRoundTrip`, `PlainRepr`, `RenderRoundTrip` and `RenderInjective` |
| `Terraform.PlainRepr` | vpc_tgw_inventory.py:68 | a string without quotes, backslashes, ASCII control characters or DEL is rendered as `'` + the string + `'` (characters from U+0080 up count as printable, see `Terraform.EscapeChar` under Left out) |
| `Terraform.TwoPlainIdsListed` | vpc_tgw_inventory.py:68 | two such ids are rendered as `['a', 'b']`: bracket, quoted ids separated by `, `, bracket |
| `Terraform.ParseReprRoundTrip` | vpc_tgw_inventory.py:68 | the `repr` of any string reads back as that string, and reading stops right after its closing quote |
| `Terraform.ParseListRoundTrip` | vpc_tgw_inventory.py:68 | the rendered subnet list reads back as the same list: same length, same order, each id unchanged, duplicates included |
| `Terraform.ParseAttachmentRoundTrip` | vpc_tgw_inventory.py:65-69 | the attachment block carries the gateway id, the VPC id and the subnet ids, in that order (for values without a double quote) |
| `Terraform.ParseRouteRoundTrip` | vpc_tgw_inventory.py:71-75 | the route block carries the route-table id, the destination CIDR and the gateway id, in that order (for values without a double quote) |
| `Terraform.RenderRoundTrip` | vpc_tgw_inventory.py:59-76 | the document is a provider block followed by exactly two resource blocks, attachment then route, and nothing else; the gateway id is in both blocks, the VPC and subnet ids in the attachment, the route table and CIDR in the route (for values without a double quote) |
| `Terraform.RenderInjective` | vpc_tgw_inventory.py:59-76 | equal documents come from equal five-tuples: the document determines every input (for values without a double quote) |
| `Workflow.Run` | vpc_tgw_inventory.py:81-125 | the calls issued are a prefix of attach, route, write; a run succeeds iff all three were issued, and the last one writes the returned document; a failed run has issued exactly the calls before its failing step (none before the attachment, only the attachment up to the route step, both after a rejected route); attachment and route use the same gateway id; so each mutation is issued at most once, the attachment before the route and the document only after both; which replies make it succeed or stop, and where, is stated by `AttachmentIssued`, `RouteIssued`, `RunSucceeds`, `StopsAtFailingStep` and `RouteRejectedAfterAttachment` |
| `Workflow.Session.Execute` | vpc_tgw_inventory.py:81-125 | running the session step by step leaves in its trace exactly the calls `Run` describes, in call order, and returns the same outcome |
| `Workflow.AttachmentFromListings` | vpc_tgw_inventory.py:83-98 | whenever the attachment is issued, the VPC reply and the gateway reply were in range, the attachment's VPC id is that of the VPC selected by the first reply and its gateway id that of the gateway selected by the second; its subnet ids are, one per reply index and in order, those of the subnet listing for that same VPC |
| `Workflow.RouteFromListings` | vpc_tgw_inventory.py:101-121 | the destination reply is in range of the filtered candidate listing (the first VPC listing without the source, a new index space) and the subnet reply in range of that VPC's subnets; the route's CIDR is the `CidrBlock` of exactly that selected subnet; its route table is the one selected among the source VPC's route tables, not the destination's; the attachment's VPC is the selected source VPC and the route uses the selected gateway, the same as the attachment; the destination VPC is listed and differs from the source |
| `Workflow.AttachmentIssued` | vpc_tgw_inventory.py:83-98 | when the VPC, gateway and subnet replies resolve, the first call issued is the attachment they select, whatever the later replies are; if the service rejects it, the run is exactly that one call and a failure at the attachment step |
| `Workflow.RouteIssued` | vpc_tgw_inventory.py:97-121 | when all six replies resolve (the destination against the filtered candidates) and the attachment is accepted, the first two calls are the selected attachment and then the selected route: the source VPC's chosen route table, the chosen destination subnet's CIDR, the chosen gateway |
| `Workflow.RunSucceeds` | vpc_tgw_inventory.py:81-125 | the converse of the two provenance lemmas: when every reply is in range of the listing it is resolved against (the destination reply against the filtered candidates) and neither mutation is rejected, the run is exactly the selected attachment, the selected route and the write of the document rendered from the selected gateway, source VPC, subnet ids, route table and destination CIDR, and succeeds with that document |
| `Workflow.StopsAtFailingStep` | vpc_tgw_inventory.py:81-118 | for each selection step, when the earlier steps went through and this reply is out of range, the run equals the report that names this step with `OutOfRange(reply, length of the listing shown)` (for the subnets, the error of resolving the reply list), after exactly the calls issued before it: none up to the subnets; from the destination VPC to the route table (earlier replies resolved, attachment accepted), exactly the selected attachment |
| `Workflow.DocumentDescribesCalls` | vpc_tgw_inventory.py:97-125 | after a successful run the written document reads back as exactly the attachment and the route just created, with their arguments (for values without a double quote) |
| `Workflow.OneGatewayIndexOne` | vpc_tgw_inventory.py:88-90 | with one gateway listed, reply 1 stops the run at the gateway step with `OutOfRange(1, 1)` before any call is issued |
| `Workflow.RouteRejectedAfterAttachment` | vpc_tgw_inventory.py:97-122 | when every reply resolves and the attachment is accepted but the route is rejected, the run is exactly the selected attachment and the selected route and a failure at the route step: the attachment stays issued and no document is written |
| `Workflow.HappyPath` | vpc_tgw_inventory.py:81-125 | for two VPCs, one gateway and replies 0,0,[0],0,0,0, the run attaches `vpc-1` to `tgw-1` via `subnet-a`, routes `10.1.0.0/16` from `rtb-1` and writes the document for those five values |

## Left out

- The boto3 reads (`describe_*`, lines 8-42) are the listings of `Remote`. A failed read is not modelled; in the script it raises and ends the run before any later step.
- The mutating calls (lines 44-57) appear as `Call` values in the trace. Their failure is a flag in `Remote`. Nothing is rolled back after a rejected route, and the script has no rollback either.
- The attachment object returned at line 98 is not modelled. The script only prints its id.
- `PrettyTable` and `print` are display only.
- `input()` and `int()` parsing are not modelled: whitespace, signs and `ValueError` on non-numeric text. Replies are given as integers. An empty subnet reply is `NoIndices`; in the script `''.split(',')` gives `['']` and `int('')` raises.
- Selection.Resolve: a negative index fails with `OutOfRange`, whereas Python indexing counts from the end of the listing (`-1` is the last entry).
- A listing record missing one of its keys (`KeyError`) is not modelled; records always carry their fields.
- Writing `main.tf` (lines 77-79) is the final `WriteDocument` call. A failed write is not modelled.
- Terraform.EscapeChar: characters from U+0080 up are treated as printable. Python escapes the non-printable ones among them with `\x`, `\u` or `\U`; only the ASCII escapes are modelled.
- Terraform.RenderRoundTrip: the four values interpolated between double quotes must not contain a double quote. The script inserts them without escaping, so such a value would make the document unreadable.
- Whether the document is valid Terraform syntax is not modelled. In particular, `subnet_ids` is written in Python list syntax with single-quoted strings.
- The module-level boto3 clients and the region are fixed. Concurrency does not arise.
