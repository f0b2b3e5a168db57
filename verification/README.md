# A verified model of the P4 OpenFlow agent

The agent turns OpenFlow 1.3 messages into entries of a P4 switch. This project
models the three places where that is intricate, and proves what they promise.

**Actions.** `OpenFlow.dfy`, `Signature.dfy` and `Parse.dfy` model the compiler
from an action list to a 32-bit signature and a table of arguments.
`Packets.dfy` says what each action does to the headers, and in which two orders
an action set can be run: that of the egress control block, and that of section
5.10 of the OpenFlow Switch Specification 1.3.0. `Pipeline.dfy` is the P4
machine: ternary tables, actions that rewrite a packet in place, two control
blocks. `Compiler.dfy` joins them: what the plugin installs for a compiled flow
makes the machine perform the action set, however many flows share the tables.
`Buckets.dfy` adds a group's bucket to the flow, on the same tables;
`GroupOrder.dfy` says when one set in the block's order does what the flow's set
and then the bucket's do.

**Flows.** `Lifecycle.dfy` models the flow callbacks over the two bookkeeping
maps, with every table and plugin call free to fail, and each call recorded with
what it is given; `Callbacks.dfy` gives their decisions path by path. The class
`Agent` stays where the run of the messages received takes it (`Agent.Valid`),
so what follows about runs is about it. `Runs.dfy` proves what holds over every
run whatsoever, `Accounting.dfy` which entries are in the tables and whose, and
`Agreement.dfy` that entries, defaults and pipeline agree. It ends with
`Agreement.PacketsRunLatestActions`: in any disciplined run, a packet that hits
a flow's entry is treated as the flow's latest actions ask, whatever happened to
all other flows. `Leftovers.dfy` is about packets that hit an entry which a
failed create left behind. `Groups.dfy` treats the handle of a group.

**Packets to and from the controller.** `Fabric.dfy` models the encapsulation
on the CPU port: the agent's two buffers, the header swaps on hosts of either
byte order, and the switch's parser and terminate action.

## What the proofs found

- The control block runs all MPLS actions before all VLAN actions. This gives
  the packet of section 5.10 except when a label is pushed, a VLAN tag is popped
  and none is pushed (`Packets.OrderRefinement`; the exact condition is
  `Packets.Clash`). The two packets then differ in the etherType alone.
- Section 5.10 runs a group's bucket after the flow's own set; the egress block
  runs both as one. For lists without a common type the two give every packet the
  same rewrites exactly when the lists are in order (`GroupOrder.InOrder`,
  `Buckets.BucketConforms`). They are not where, for instance, the flow sets the
  id of a tag that the bucket pops (`GroupOrder.SetLandsOnInnerTag`).
- Flow ids are 64 bits wide and the P4 index 32: two flows are isolated exactly
  when their ids differ in the low 32 bits
  (`Compiler.IsolationNeedsDistinctIndexes`).
- A create whose pipeline call fails leaves its table entry behind. As long as
  messages are disciplined, the entry stays for good, also when the create is
  retried (`Accounting.LeakIsForever`). What gets at it is exactly a modify or
  delete, accepted by its table, of a flow whose books point at its place; that
  flow has been deleted before, or set a default (`Accounting.LeakTouched`). A
  retried delete is such a message (`Accounting.RetriedDeleteTakesLeak`).
- Once that create is retried, packets that hit the entry left behind run the
  latest actions if the signature is the same
  (`Leftovers.LeftoverRunsLatestActions`), and may run something else if not
  (`Leftovers.LeftoverRunsStaleActions`).
- The bookkeeping is never cleared. A delete that failed at the pipeline, after
  its table entry had gone, can take another flow's entry away when it is
  retried (`Accounting.RetriedDeleteHitsAnother`); a message meets an entry of
  its own flow exactly when the flow is live or leaked an entry just there
  (`Accounting.MeetsOwnEntry`).
- A group handle loses the type of a group whose id is 2^31 or more
  (`Groups.HandleRoundTrip`).
- A packet-out reaches exactly the ports below 2^16
  (`Fabric.PacketOutRoundTrip`).
- The test for an empty match also takes a match whose only field has an empty
  value for empty (`Lifecycle.DefaultTest`).

## What is assumed

- A Judy array is a finite map, and `J1T` says whether a key is present.
- A table hands out handles that are not in use and refuses to delete an entry
  it does not have; a table call that fails changes nothing.
- A plugin call touches only pipeline entries of the key it is given, wherever it
  inserts them and also when it fails. When an add or a modify succeeds there is,
  for each bit of the signature it is given, one such entry with the argument
  from the table it is given; when a delete succeeds there is none. These are
  contracts on the arguments of each call (`Runs.Honours`, with
  `Compiler.TouchesOnly`, `Compiler.Installed` and `Compiler.Removed`); that the
  callbacks pass the right ones is proved (`Agreement.PipelineCallsMatch`).
- A flow's pipeline key is its index with the other fields wildcard. A bucket's
  is its group and port with the index wildcard; its signature is what the
  group-egress table holds for that group and port.
- The 16 bits that the parser of instructions reads at offset 0
  (src/parse.c:125) are the type of the list's first instruction.
- Set-queue, copy-TTL and PBB actions do nothing, on the switch's side since no
  table performs them, and also in the order of section 5.10 that it is compared
  with; `Compiler.CompilerConforms` states in addition what holds for lists
  without copy-TTL and PBB actions, whatever those would mean.
- Writing a field of an absent header, or removing an absent header, does
  nothing, and popping an absent VLAN tag leaves the etherType alone. Adding to a
  header stack shifts it, and does nothing when the stack is full; added headers
  are zero. The VLAN id is the low 12 bits of its argument; a decrement wraps.
- A run is disciplined when every create has an id whose low 32 bits no other
  flow holds and is for a flow not in place, and no modify or delete names a flow
  whose table entry has been deleted or which set a default
  (`Accounting.Disciplined`). An index is held from the create that a table
  accepts, of an entry or of a default, until the entry is deleted, and for good
  if a create of the flow leaked an entry. A create that failed may be retried,
  and a flow deleted may be created again. The bookkeeping, routing and
  conservation results need no discipline.
- A packet's header stacks are no deeper than the target declares them, where the
  results about groups and section 5.10 compare packets (`GroupOrder.Fits`).
- The traffic manager takes a unicast packet to the port ingress chose.
- The target parses etherType 0x9000 with the fabric parser, and copies the
  reason code that `openflow_miss` computes into the CPU header.

## Model

| member | source | states |
|---|---|---|
| `Signature.SetThenCheck` | src/callbacks.c:43-51 | setting a bit of a signature sets that bit and leaves every other bit as it was |
| `Signature.SetHighBit` | src/callbacks.c:43-46 | a bit from 32 to 63 is shifted in 64 bits and lost, so the signature stays |
| `Signature.GuardsAreBits` | p4src/openflow.p4:542-604 | each literal mask tested by the control blocks is the bit C sets for the code of the action type that guards the table |
| `Signature.BitsDetermine` | src/callbacks.c:43-51 | signatures with the same 32 bits are the same signature |
| `OpenFlow.LastOfMeaning` | src/parse.c:87-110 | the reference notion of the last action of a type: no later action has that type, and it is absent only when the type is |
| `Parse.Compilation.ParseOfpat` | src/parse.c:28-73 | type, argument and field of an action; an action without argument leaves the previous argument in place |
| `Parse.Compilation.Store` | src/parse.c:92-109 | an argument lands under its type, through the nested table for SET_FIELD, and no other word changes |
| `Parse.Compilation.ParseAction` | src/parse.c:87-110 | one loop iteration is one step of the specification fold |
| `Parse.Compilation.ParseActions` | src/parse.c:75-111 | the loop computes the fold of the whole list from any well-formed table and signature |
| `Parse.Compilation.ParseInstructions` | src/parse.c:113-141 | an empty list changes neither table nor signature; any other compiles the actions of its first instruction, which carries actions, and nothing after them |
| `Parse.LastWriter` | src/parse.c:87-110 | the table gains exactly the types of the list, and a type with an argument ends with that of its last occurrence |
| `Parse.SignatureBits` | src/parse.c:108 | a bit ends set exactly when it was set before or its code occurs in the list |
| `Parse.CompiledType` | src/parse.c:75-111 | compiled from scratch, signature, table and last occurrence agree on every type |
| `Parse.Canonical` | src/parse.c:87-110 | two lists give the same signature and the same arguments if and only if they agree on the last action of every type |
| `Parse.PermutationCompilesAlike` | src/parse.c:87-110 | reordering a list without repeated types changes nothing that is compiled |
| `Parse.FirstInstruction` | src/parse.c:136-141 | whatever follows the first instruction, its actions alone are compiled, and an empty list compiles to signature 0 and an empty table |
| `Parse.SignatureHasMask` | src/parse.c:108 | in numbers: a signature has the mask of an action type (from 0x1 for output to 0x8000000 for pop-PBB) exactly when the list has that type |
| `Parse.CompiledWord` | src/parse.c:34-63 | in numbers: the word of a type is the port, group, queue, TTL or, in a nested table, VLAN id of its last action, and types not in the list have none |
| `Parse.LeftoverArgument` | src/parse.c:64-69 | an action without argument is stored with the argument of the one before it |
| `Packets.LayersCommute` | p4src/openflow.p4:295-515 | MPLS TTL, VLAN and IP rewrites commute with each other across layers |
| `Packets.HeadsAgree` | p4src/openflow.p4:337-407 | pops and pushes in either order leave headers that differ at most in the etherType, and are equal exactly without a clash |
| `Packets.PipelineAsTail` | p4src/openflow.p4:552-605 | the order of the control block equals pops and pushes first, then decrements, then sets |
| `Packets.OrderRefinement` | p4src/openflow.p4:552-605 | the control block's order gives the packet of section 5.10 of OpenFlow 1.3.0 if and only if there is no clash, and otherwise differs in the etherType alone |
| `Packets.ClashExists` | p4src/openflow.p4:337-407 | a concrete action list and packet for which the two orders differ |
| `Packets.PushMplsGives` | p4src/openflow.p4:337-340 | a zero label goes on top of the others under etherType 0x8847, and a full stack takes none |
| `Packets.PushVlanGives` | p4src/openflow.p4:381-385 | a tag with zero priority and id that announces 0x0800 goes on top under etherType 0x8100; on a full stack the outermost tag then announces 0x0800 |
| `Packets.MplsActionsGive` | p4src/openflow.p4:295-361 | the label popped, its TTL one less or 255 after 0, or set, and the rest of the stack as it was |
| `Packets.VlanActionsGive` | p4src/openflow.p4:404-428 | the tag popped with its etherType handed to the frame, or its id set and the rest of it and of the stack as it was |
| `Packets.IpActionsGive` | p4src/openflow.p4:438-533 | the IPv4 TTL, or without IPv4 the hop limit, one less or 255 after 0, or set |
| `Packets.NothingToRewrite` | p4src/openflow.p4:295-533 | an action without its header, or without a table, changes nothing |
| `Pipeline.Packet.OpenflowApply` | p4src/openflow.p4:196-202 | a hit marks the packet with bitmap, index and group |
| `Pipeline.Packet.OfpatPopMplsAction` | p4src/openflow.p4:359-361 | removes the outermost label and changes nothing else |
| `Pipeline.Packet.OfpatPushMplsAction` | p4src/openflow.p4:337-340 | sets the MPLS etherType and pushes a zero label |
| `Pipeline.Packet.OfpatDecMplsTtlAction` | p4src/openflow.p4:316-318 | decrements the outermost label's TTL, wrapping in 8 bits |
| `Pipeline.Packet.OfpatSetMplsTtlAction` | p4src/openflow.p4:295-297 | sets the outermost label's TTL |
| `Pipeline.Packet.OfpatPopVlanAction` | p4src/openflow.p4:404-407 | moves the tag's etherType to the frame and removes the tag |
| `Pipeline.Packet.OfpatPushVlanAction` | p4src/openflow.p4:381-385 | sets the VLAN etherType and pushes a tag that announces IPv4 |
| `Pipeline.Packet.OfpatSetVlanVidAction` | p4src/openflow.p4:426-428 | sets the id of the outermost tag |
| `Pipeline.Packet.Run` | p4src/openflow.p4:295-533 | runs the action an entry of a header table selects, among them the four IP TTL actions |
| `Pipeline.Packet.ApplyIf` | p4src/openflow.p4:556-583 | a header table is applied exactly when the bit of its type is set, and runs the action of the first matching entry |
| `Pipeline.Packet.ApplyNwIf` | p4src/openflow.p4:586-604 | the IPv4 table is applied to IPv4 packets and else the IPv6 table to IPv6 packets |
| `Pipeline.KeyMatches` | p4src/openflow.p4:277-281 | a key asks for equality in each field given and for nothing in the others |
| `Pipeline.LookupFinds` | p4src/openflow.p4:277-288 | the first matching entry decides |
| `Pipeline.LookupMisses` | p4src/openflow.p4:283-287 | a miss does nothing |
| `Pipeline.Packet.ApplyGroupIngress` | p4src/openflow.p4:247-265 | the group-ingress table sets the port or the multicast group |
| `Pipeline.Packet.ApplyOutput` | p4src/openflow.p4:271-288 | the output table sets the egress port |
| `Pipeline.Packet.ProcessOfpatIngress` | p4src/openflow.p4:542-550 | group first, then output |
| `Pipeline.Packet.ApplyGroupEgress` | p4src/openflow.p4:227-241 | a group-egress hit adds bits to the bitmap and a miss changes nothing |
| `Pipeline.Packet.ProcessOfpatEgress` | p4src/openflow.p4:552-608 | the sequence of guarded tables computes the specified rewrite of the headers and adds the group's bits |
| `Pipeline.Packet.ForwardMarked` | p4src/openflow.p4:196-608 | marking, ingress, the traffic manager and egress in sequence take a packet where the specification of a hit takes it, so the theorems about that hold of it |
| `Pipeline.OrBits` | p4src/openflow.p4:227-229 | a bitmap that gains bits by bit_or has exactly the bits of both |
| `Pipeline.RewriteReadsTestedBits` | p4src/openflow.p4:556-604 | bitmaps that agree on the bits tested at egress rewrite every packet alike |
| `Pipeline.GroupMerge` | p4src/openflow.p4:227-241 | a group-egress hit that adds bits rewrites as a miss does on the merged metadata, which has the bits of both and nothing else changed |
| `Pipeline.LateBitsDoNothing` | p4src/openflow.p4:552-608 | where a group-egress hit adds only bits that no egress guard tests, egress leaves the packet of a miss |
| `Pipeline.OutputAndGroupBitsAreLate` | p4src/openflow.p4:543-549 | bits 0 and 22 are such bits |
| `Pipeline.OutputFollowsGroup` | p4src/openflow.p4:542-550 | a packet that asks for both ends with the output's port, looked up under the port the group chose, and with the multicast group of a multicast group |
| `Pipeline.NoOutputEntry` | p4src/openflow.p4:283-287 | without a matching output entry it stays where the group sent it |
| `Compiler.Isolation` | inc/p4ofagent/plugin.h:22-34 | whatever a plugin call does for one flow, no lookup and no entry of a flow with another index changes |
| `Compiler.IsolationNeedsDistinctIndexes` | p4src/openflow.p4:34-41 | two flows are isolated if and only if their ids differ in the low 32 bits |
| `Compiler.IndexIsLowWord` | p4src/openflow.p4:34-41 | the index of an id of two 32-bit words is the low word |
| `Compiler.IsolationInWords` | p4src/openflow.p4:34-41 | two flows are isolated if and only if the low words of their ids differ, whatever the high ones are |
| `Compiler.DistinctIdsMayShareIndex` | src/callbacks.c:125-127 | flow ids 1 and 2^32+1 are distinct and not isolated |
| `Compiler.MarkedLookup` | p4src/openflow.p4:277-288 | a packet marked for an installed flow meets that flow's action in every table its bitmap selects, also where other groups have entries |
| `Compiler.BoundIsCounterpart` | inc/p4ofagent/plugin.h:22-24 | the entry bound from the compiled table carries the argument of the last action of its type |
| `Compiler.CounterpartPerforms` | p4src/openflow.p4:295-533 | the entry's action does to the headers what the OpenFlow action means |
| `Compiler.MarkedSelects` | p4src/openflow.p4:556-604 | on a packet marked for a flow, exactly the tables of the list's types are applied, and each runs the last action of its type |
| `Compiler.RewritePerforms` | p4src/openflow.p4:552-608 | egress on such a packet performs the action set in the pipeline's order |
| `Compiler.IngressOutputs` | p4src/openflow.p4:542-550 | ingress sends such a packet to the port of the last output action, or leaves its port |
| `Compiler.CompilerCorrect` | src/parse.c:75-111 | compiling any list without a group, installing it, marking any packet and running both control blocks performs the list's action set, last writer per type |
| `Compiler.CompilerConforms` | p4src/openflow.p4:542-608 | and the packet is that of section 5.10 of OpenFlow 1.3.0 if and only if it does not clash with the set; types that no table performs count as no-ops, and for lists without copy-TTL and PBB the statement holds whatever those would mean |
| `Buckets.JoinedSelects` | p4src/openflow.p4:227-241 | with a bucket's bits merged in, exactly the tables of the types of both lists are applied, and each runs its list's last action |
| `Buckets.BucketCorrect` | p4src/openflow.p4:552-608 | a flow and a group's bucket without a common type, their entries on the same tables in any order, have both lists performed as one action set in the control block's order |
| `GroupOrder.SpecLayers` | p4src/openflow.p4:552-605 | section 5.10 and the control block rewrite labels, tags and IP headers alike, layer by layer, and may differ in the etherType alone, whose last writer is given |
| `GroupOrder.InOrderSuffices` | p4src/openflow.p4:552-605 | where two lists are in order, both as one set do to every packet what the flow's set and then the bucket's do, as section 5.10 asks |
| `GroupOrder.OutOfOrderTells` | p4src/openflow.p4:552-605 | where they are not, there is a packet, built from the flow's arguments, that comes out differently |
| `GroupOrder.OneSetIsTwo` | p4src/openflow.p4:552-605 | so one set equals two in sequence on all packets of all targets if and only if the lists are in order |
| `GroupOrder.SetLandsOnInnerTag` | p4src/openflow.p4:404-428 | a flow that sets a tag's id and a bucket that pops the tag: the id lands on the inner tag instead |
| `GroupOrder.ClashBetweenSetsIsNone` | p4src/openflow.p4:337-407 | a flow that pushes a label and a bucket that pops a tag clash as one set, and still every packet is that of section 5.10 |
| `Buckets.BucketConforms` | p4src/openflow.p4:552-608 | egress gives every packet what section 5.10 asks, the flow's set and then the bucket's, if and only if the lists are in order |
| `Buckets.IndirectGroupCorrect` | p4src/openflow.p4:542-608 | end to end, a packet of a flow that sends to a unicast group leaves by the group's port with the actions of flow and bucket performed as one set |
| `Buckets.IndirectGroupConforms` | p4src/openflow.p4:542-608 | and every such packet is that of section 5.10 if and only if the lists are in order |
| `Buckets.IngressGroups` | p4src/openflow.p4:247-265 | ingress gives the packets of a flow with a group and no output the port of a unicast group, or the multicast group of a multicast group and the port they had, or nothing where the group is unknown |
| `Buckets.MulticastGroupCorrect` | p4src/openflow.p4:251-253 | end to end, packets sent to a multicast group carry it on, and each copy has the actions of the flow and of its port's bucket performed |
| `Buckets.MulticastGroupConforms` | p4src/openflow.p4:542-608 | and are those of section 5.10 if and only if the lists are in order |
| `Buckets.NoBucketCorrect` | p4src/openflow.p4:227-241 | on a port without a bucket of the group, egress performs the flow's own set, as section 5.10 orders it if and only if there is no clash |
| `Buckets.UnknownGroupDoesNothing` | p4src/openflow.p4:542-608 | a packet of a group unknown at ingress and egress keeps its port and runs the flow's own set |
| `Lifecycle.DefaultTest` | src/callbacks.c:90 | the length test holds exactly for the empty match and the match of one empty value, so for matches of non-empty values exactly for the empty one |
| `Lifecycle.Agent.constructor` | src/state.c:23-24 | the maps start empty |
| `Lifecycle.Agent.ChooseFlowId` | src/callbacks.c:83 | the cookie, ored with its mask, takes over as id when the mask is not zero |
| `Lifecycle.EffectiveIdIsId` | src/callbacks.c:83 | so with mask 0 the id is that of the message, and otherwise each of its 64 bits is set exactly where the cookie or the mask has it |
| `Lifecycle.Agent.ParseMessage` | src/callbacks.c:86-88 | the signature and the argument table a callback passes on are those of the first instruction's actions, and 0 and empty where there is none |
| `Lifecycle.Agent.EnterTable` | src/callbacks.c:90-122 | the match decides between adding an entry and setting a default, and the table is given the flow, signature and arguments |
| `Lifecycle.Agent.NewPipelineKey` | src/callbacks.c:125-126 | the key of a flow's pipeline entries matches exactly the packets of the flow's index, whatever their group and port |
| `Lifecycle.Agent.AddPipeline` | src/callbacks.c:124-136 | unless the table signalled otherwise, pipeline entries are added under the flow's key for the same signature and arguments, and the maps are written only if that succeeded |
| `Lifecycle.Agent.FlowCreate` | src/callbacks.c:57-137 | error on every path, the id handed back bit by bit, and the agent is where its run so far takes it: maps, data plane, and every call with its arguments |
| `Lifecycle.Agent.FlowModify` | src/callbacks.c:139-190 | the same for modify; the table id in the message plays no part |
| `Lifecycle.Agent.FlowDelete` | src/callbacks.c:192-227 | the same for delete; the maps are not cleared |
| `Callbacks.CreateRefused` | src/callbacks.c:90-115 | a create is refused, with no call and no change, exactly for a match that cannot be read or a table without the function asked for, each with its own error |
| `Callbacks.CreateGoesOn` | src/callbacks.c:104-136 | every other create calls its table, then unless told otherwise the pipeline, with its id's bits, key, signature and arguments; it succeeds and is booked exactly when all calls do |
| `Callbacks.ModifyDecides` | src/callbacks.c:163-189 | a modify fails with not-found or bad-table as the maps and tables decide, or changes the booked entry and then the pipeline, and books nothing |
| `Callbacks.DeleteDecides` | src/callbacks.c:203-226 | a delete likewise deletes the booked entry and then the pipeline entries, and keeps the books |
| `Runs.BookkeepingIsHistory` | src/state.c:42-74 | in every run both maps hold exactly the flows ever created successfully, with what the latest such create was given |
| `Runs.Routing` | src/callbacks.c:163-177 | in every run a modify or delete that reaches a table acts for the flow named, at the place of its latest successful create |
| `Runs.OneCreate` | src/callbacks.c:133-134 | with fresh ids the latest successful create of a flow is the only one |
| `Runs.RoutingToTheCreate` | src/callbacks.c:203-217 | so such a call acts at exactly the place that the one create of its flow was given |
| `Runs.RunIsItsCalls` | src/callbacks.c:57-227 | in every run the data plane is what the calls, in their order, make of it |
| `Runs.Conservation` | src/callbacks.c:104-134 | in every run the table entries are at exactly the places that successful adds took and successful deletes did not free |
| `Runs.ConservationCounts` | src/callbacks.c:104-134 | with every call honoured they are as many as successful adds less successful deletes |
| `Accounting.EntriesAreAccounted` | src/callbacks.c:104-134 | in every disciplined run, defaults and retried creates included, each live flow has its own entry where the maps say, every other entry is one whose create then failed at the pipeline, and each flow with an entry holds its index |
| `Accounting.EntriesExactly` | src/callbacks.c:104-134 | so the tables hold exactly the places of live flows and of creates that failed at the pipeline |
| `Accounting.LeakTouched` | src/callbacks.c:127-130 | an entry of that second kind is changed by exactly those modifies and deletes, accepted by its table, of a flow whose books point there, and removed by exactly those deletes; such a flow is gone or set a default |
| `Accounting.LeakIsForever` | src/callbacks.c:127-130 | so while the discipline is kept the entry is never changed or removed |
| `Accounting.MeetsOwnEntry` | src/callbacks.c:203-217 | a modify or delete that reaches a table meets an entry of its own flow if and only if the flow is live or leaked an entry just there |
| `Accounting.RetriedDeleteHitsAnother` | src/callbacks.c:214-224 | a concrete run in which retrying a delete that failed half-way removes another live flow's entry |
| `Accounting.RetriedDeleteTakesLeak` | src/callbacks.c:127-130 | a concrete run with a leak, in which the same retry removes the leaked entry |
| `Agreement.PipelineCallsMatch` | src/callbacks.c:104-127 | every callback gives the pipeline the signature and arguments it gave the table, under the key of its flow |
| `Agreement.StepTouches` | src/callbacks.c:124-131 | so a callback touches the pipeline entries of its own flow alone |
| `Agreement.BitmapAgreesWithPipeline` | src/callbacks.c:174-187 | in every disciplined run, a flow whose latest create or modify taken by its table succeeded has an entry with the signature and arguments of those actions, or set a default, and pipeline entries for that same signature |
| `Agreement.DefaultIsLatest` | src/callbacks.c:109-122 | in every run a table's default is what the latest create it took as a default gave it |
| `Agreement.DefaultsAgree` | src/callbacks.c:109-131 | in every disciplined run, a default whose create succeeded has that create's signature and arguments, and its flow the pipeline entries of the same |
| `Agreement.DeletedLeavesNothing` | src/callbacks.c:214-226 | after a delete without error, then or later until its index is used again, no pipeline entry has the flow's key, no table entry marks packets for it but those its failed creates leaked, and its index is free if there are none |
| `Agreement.PacketsRunLatestActions` | src/callbacks.c:57-227 | end to end over every disciplined run: a packet hitting a settled flow's entry has the flow's latest action set performed and goes to its output port, as section 5.10 orders it if and only if there is no clash |
| `Agreement.MissesRunTheDefault` | src/callbacks.c:109-131 | the same for a packet that misses in a table whose latest default was set successfully |
| `Leftovers.LeftoverRunsLatestActions` | src/callbacks.c:124-131 | after a disciplined run, a packet that hits the entry of a failed create runs the flow's latest actions if that create had the same signature |
| `Leftovers.LeftoverRunsStaleActions` | src/callbacks.c:124-131 | a concrete run in which such a packet, the signature being another, is not treated as the latest actions ask |
| `Groups.GroupAgent.GroupCreate` | src/callbacks.c:290-304 | groups of type all or indirect are allocated and created, and others refused |
| `Groups.GroupAgent.GroupModify` | src/callbacks.c:306-322 | the group unpacked from the handle is deleted, and recreated if that succeeds |
| `Groups.GroupAgent.GroupDelete` | src/callbacks.c:324-332 | the group unpacked from the handle is deleted |
| `Groups.HandleRoundTrip` | src/callbacks.c:301-312 | for type all the id always survives packing, and the type if and only if the id is below 2^31 |
| `Groups.LaterCallsNameTheGroup` | src/callbacks.c:306-332 | every call made under such a handle names the group created if and only if the id is below 2^31 |
| `Groups.CreateCallsExactly` | src/callbacks.c:293-299 | a create of type 0 or 2 makes exactly the calls alloc and create, and of any other type none and an error |
| `Groups.HandleKeepsId` | src/callbacks.c:301-309 | the handle is the sum of shifted type and id, and gives back the id whatever the shift leaves above 32 bits |
| `Groups.LaterCallsExactly` | src/callbacks.c:306-332 | below 2^31 a modify makes exactly the calls delete, alloc and create of that id and type 0, or the delete alone if refused, and a delete exactly one delete |
| `Groups.LaterCallsMistaken` | src/callbacks.c:306-332 | from 2^31 on exactly the same calls are made for type 1 |
| `Groups.TypeOfAnyHandle` | src/callbacks.c:309-327 | of any handle, a modify takes the bits from 31 up as type, and a delete their low byte |
| `Groups.GroupAgent.Live` | src/callbacks.c:290-332 | a group of type all created, modified and deleted: every call the agent logs |
| `Fabric.StoredSwapped` | src/cpu_packet.c:36 | on a host of either byte order a swapped field is stored in network order |
| `Fabric.LoadedSwapped` | src/cpu_packet.c:34 | on a host of either byte order a loaded field is the network value once swapped |
| `Fabric.FabricHeader.Swap` | src/cpu_packet.c:31-38 | the port field is swapped in place and the header's memory becomes its wire form |
| `Fabric.CpuHeader.Swap` | src/cpu_packet.c:53-68 | the same for the five 16-bit fields of the CPU header |
| `Fabric.CpuHeader.LoadSwapped` | src/p4ofagent.c:66-68 | port and reason code of a received header are read in network order |
| `Fabric.Buffers.ReadActions` | src/ind_fwd.c:80-98 | only the first action counts: output to a port or flood, anything else is refused |
| `Fabric.Buffers.MakeHeaders` | src/ind_fwd.c:55-63 | the two headers of a packet-out in wire form |
| `Fabric.Buffers.Fill` | src/ind_fwd.c:70-110 | the buffer holds the frame with both headers behind its MAC addresses |
| `Fabric.Buffers.IndigoFwdPacketOut` | src/ind_fwd.c:39-118 | the bytes sent are the encapsulated frame, or the message is refused |
| `Fabric.Buffers.ReadCpuHeader` | src/p4ofagent.c:62-68 | ingress port and reason code come from their bytes in network order |
| `Fabric.Buffers.CopyPayloadHeader` | src/ind_fwd.c:66-68 | the payload's etherType passes through a host field unchanged |
| `Fabric.Buffers.Strip` | src/p4ofagent.c:94-101 | the output buffer holds MAC addresses, etherType and the bytes from offset 32, then zeros |
| `Fabric.Buffers.PacketInHandler` | src/p4ofagent.c:40-101 | the packet-in for every received length on which the copies stay inside the buffers |
| `Fabric.EncapsulatedLayout` | src/cpu_packet.h:34-113 | where each header of an encapsulated frame lies |
| `Fabric.ParsesAsCpu` | p4src/openflow.p4:113-138 | the switch parses an encapsulated frame of type CPU into exactly its parts |
| `Fabric.PacketOutRoundTrip` | p4src/openflow.p4:113-157 | what a packet-out to a port sends is 18 bytes longer, parses as CPU, and terminates as the original frame; the egress port is the one asked for if and only if it is below 2^16 |
| `Fabric.ReasonPacking` | p4src/openflow.p4:215-218 | every 8-bit reason and table id come back out of the packed code |
| `Fabric.OutBufIsFrame` | src/p4ofagent.c:94-101 | from 32 bytes on, the data is the message without its headers followed by 18 zeros |
| `Fabric.PacketInRecovers` | src/p4ofagent.c:75-101 | the first total_len bytes handed up are the frame encapsulated, the rest is zero, and port, reason and table id are those sent |
| `Fabric.UpAndBack` | src/p4ofagent.c:79-101 | a frame taken up and sent back out to a port below 2^16 arrives there unchanged, for every frame both buffers admit |
| `Fabric.WordsInNumbers` | src/cpu_packet.c:31-38 | a 16-bit word is 256 times its high byte plus its low one, on the wire high byte first, in memory as the host has it; a miss packs the reason 256-fold |
| `Fabric.DestinationsByFirst` | src/ind_fwd.c:80-98 | the first action alone decides: ports 0xfffffffb and 0xfffffffc flood, other ports are cut to 16 bits, no action gives port 0, and other actions are refused |
| `Fabric.PacketOutBytes` | src/ind_fwd.c:55-110 | every byte of a packet-out |
| `Fabric.PacketInBytes` | src/p4ofagent.c:40-101 | every byte and field of a packet-in, for every message of 18 to 1986 bytes |
| `Fabric.ParseGives` | p4src/openflow.p4:113-138 | which frames the switch takes for plain, CPU or multicast packets, and into which parts |
| `Fabric.TerminateGives` | p4src/openflow.p4:147-157 | a CPU packet leaves by the port of its fabric header as MAC addresses, etherType and payload |

## Left out

- Sockets, start-up, threads and statistics callbacks: calls into code not part of this model.
- SET_FIELD for fields other than the VLAN id: unsupported by the code, which then stores a leftover argument and, for a second field, does not keep the nested table's new root.
- The experimenter action type: its code shifts past 64 bits, which C leaves undefined.
- `Parse.LeftoverArgument`: what is stored for an action without argument is shown after an output action; no table reads it.
- `Parse.Compilation.ParseInstructions`: instruction lists led by a goto, metadata or meter instruction are excluded; the type is read at offset 0 of the message and what it then means is unsettled in the code.
- The etherTypes that push and pop actions carry on the wire: the code ignores them, so the meaning of an action is that of its P4 action; the TTL a new label would inherit is likewise zero.
- `ingress_metadata.egress_ifindex` and the width of the egress port field: they belong to the target.
- Where a packet with both a group and an output goes is not compared with the standard: it depends on entries of a plugin that is not part of this model.
- `Buckets.BucketCorrect`: a flow and a bucket that share a type are excluded, since which of the two entries matches first is up to the plugin.
- `Agreement.PacketsRunLatestActions`: a modify or delete of a flow that set a default is undisciplined, since the handle of a default is not known to be that of an entry; `Runs.BookkeepingIsHistory`, `Runs.Routing`, `Runs.Conservation` and `Agreement.DefaultIsLatest` cover such runs.
- `Groups.GroupAgent.GroupCreate`: the handle of an indirect group is a parameter, since the shift of its type overflows an int.
- `Fabric.Buffers.PacketInHandler`: received lengths below 18 or above 1986 are excluded, since the copies then leave the buffers; so are frames outside 14 to 1982 bytes in `Fabric.Buffers.IndigoFwdPacketOut`.
- `cpu_packet_swap_multicast` and the multicast terminate action: the agent never sends multicast packets.
- Flooded packet-outs are encoded, but what the switch does with the multicast group is not shown.
- Memory allocation and release of arguments.
