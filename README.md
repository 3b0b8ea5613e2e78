# Block chains of a visual block editor

This project models the engine of a browser-based visual block editor. In
the editor, blocks snap together into chains that a small robot program
then runs. The model covers:

- **Blocks.** Plain, control and start blocks (js/block.js,
  js/controlblock.js, js/startblock.js). Each has a `prev`/`next` link, a
  `group`, a measured size and connectors.
- **Block groups.** A group (js/blockgroup.js) holds one chain, starting
  at its `first` block. A group is either global, that is placed on the
  surface, or nested as a branch of a control block.
- **Chain operations.** `remove`, `removeChain`, `append`, `appendChain`
  and `connect`, and the group methods that move whole chains.
- **Layout.** `update`, `updatePosition` and `updateSize` decide where
  blocks, connectors and branches are drawn.
- **Attaching.** Connector areas (`connectorArea`) and the rectangle test
  of js/svg.js decide where a dragged chain may attach. The attachee
  search scans the global groups, the chains and the branches in order.
- **The editor.** js/blockeditor.js holds the list of global groups and
  the drag state machine. Its steps are `mousedown`, `mousemove` (with a
  throttled check on a timer) and `mouseup`. It also has helpers that
  create blocks, groups and chains.
- **The interpreter.** js/eval.js runs a chain as `drive` commands.

## How the model is built

- **Ids, not pointers.** Every block and group is addressed by an id. A
  value `Structure` (module `Arena`) holds the links and the group
  fields. A value `Drawing` holds positions, connector positions, shown
  hover paths and drag styling.
- **Workspace.** The class `Workspaces.Workspace` holds both values and
  changes them in place, as the source's objects do.
- **Ghost suffix map.** A ghost map gives the chain that starts at each
  block. The invariant `Linked` ties this map to the `next` links. As a
  result, no chain has a cycle and every walk along `next` terminates.
- **Group invariant.** `Arena.Grouped` states the invariant locally:
  - `group` is the same along every link;
  - a group's `first` is a head in that group;
  - a grouped head is its group's `first`.

  `Arena.FirstReaches` derives the reachability form from this.
- **Operations as values.** Every chain operation is first defined as a
  function on `Structure` (modules `Arena` and `Operations`). Lemmas state
  what it does to links, groups and chain order, and that it keeps the
  invariant.
- **Methods refer to the functions.** The in-place methods and the loops
  of the editor, layout and interpreter are proved equal to those
  functions.

Coordinates are `real`, because drag deltas are divided by the view
scale.

### Where the code and the written description differ

The model follows the code in each of these cases:

- **`appendChain` and redrawing.** A block's `appendChain` redraws only
  when the target block is in a group (js/block.js:171). Otherwise
  nothing is redrawn.
- **The group's `appendChain`.** js/blockgroup.js does not define a
  group's `appendChain`, `prependChain`, `hasParent`, `attachable`,
  `globalPosition`, `size` or `update`, although other code calls them. The model
  gives each the behaviour its callers rely on. On an empty group,
  `appendChain` makes the incoming chain the group's whole chain. On a
  non-empty group, it appends the chain after the group's last block.
- **Group membership.** The invariant is stated locally, along `next`
  links. That a block is in group `g` exactly when it is reached from
  `g`'s `first` is proved from it in both directions (`Arena.FirstReaches`
  and `Arena.GroupedReached`).

## Model

| member | source | states |
|---|---|---|
| Geometry.RectsIntersect | js/svg.js:21-31 | the centre/half-extent test holds exactly when the rectangles overlap on open intervals along both axes |
| Geometry.RectsIntersectSymmetric | js/svg.js:21-31 | the intersection test does not depend on argument order |
| Geometry.TouchingRectsDoNotIntersect | js/svg.js:30 | rectangles that only share an edge do not intersect (the comparison is strict) |
| Geometry.RectIntersectsItself | js/svg.js:21-31 | a rectangle with positive extent intersects itself |
| Geometry.ClampedSize | js/block.js:223-239 | the size is at least the minimums; without a bounding box it is exactly the minimums; otherwise the measured width and the height less the connector are kept when large enough |
| Geometry.ReceivingArea | js/block.js:254-274 | the area to which others connect spans 10 above to 5 below the block's bottom edge and is 54 wide |
| Geometry.ConnectingArea | js/block.js:254-274 | the area with which a block connects spans 10 above to 5 below its top edge and is 54 wide |
| Geometry.AttachWindow | js/block.js:254-274 | a block's connecting area meets another block's receiving area exactly when its top edge is within 54 horizontally and 15 vertically of that block's bottom edge |
| Blocks.DefaultCount | js/controlblock.js:7 | `cnt \|\| 1`: never zero; a given non-zero count is kept, and an absent or zero count becomes 1 |
| Blocks.NestedCount | js/controlblock.js:24-33 | a control block with `cnt >= 0` makes `cnt` nested groups; other kinds make none |
| Blocks.ConnectorCount | js/controlblock.js:35-43 | a control block has `cnt + 1` connectors; plain and start blocks have one |
| Blocks.SizeOf | js/controlblock.js:87-106 | a plain block is at least 104×60; a control block is at least 104 × (15 + 90·cnt); a start block is exactly 104×57; without a bounding box the minimums are exact |
| Blocks.SegmentHeight | js/controlblock.js:76-84 | a branch segment is the measured height, raised to at least 30 |
| Blocks.BranchTopsSpread | js/controlblock.js:45-74 | successive branches of a control block are at least 90 apart, so branches never overlap |
| Blocks.BranchTopLowerBound | js/controlblock.js:45-74 | branch `i` starts at least `60 + 90(i-1)` below the block's top |
| Chains.SuffixUnique | js/block.js:84-86 | the chain from a block is fixed by the `next` links: two suffix maps linked to the same links agree |
| Chains.Distinct | js/block.js:84-86 | no chain visits a block twice, so walking `next` never cycles |
| Chains.InSuffix | js/block.js:84-86 | a chain through `c` ends with the chain from `c`, which is shorter unless `c` is its start and does not contain that start |
| Chains.HeadOwns | js/block.js:73-75 | a chain that starts at a head contains every chain that meets it, so a block belongs to one chain only |
| Chains.RemoveLinked | js/block.js:94-109 | unlinking `b` and joining its neighbours keeps the links mutual and the chains acyclic |
| Chains.CutLinked | js/block.js:113-128 | cutting the link before `b` keeps the links mutual and the chains acyclic |
| Chains.JoinLinked | js/controlblock.js:130 | joining the tail of one chain to the head of another keeps the links mutual and the chains acyclic |
| Chains.SpliceLinked | js/block.js:133-172 | splicing the chain of a head `b` in after `t` keeps the links mutual and the chains acyclic |
| Arena.IsFirst | js/block.js:73-75 | true exactly when the block is its group's `first`, which happens exactly for grouped blocks without `prev` |
| Arena.IsLastEndsChain | js/block.js:79-86 | `isLast()` holds exactly for a grouped block that is its own chain's `lastInChain()` |
| Arena.LastInChain | js/block.js:84-86 | the one block of the chain from `b` that has no `next` |
| Arena.GroupAlong | js/block.js:123-126 | every block on the chain from `a` is in `a`'s group |
| Arena.FirstReaches | js/block.js:155-162 | every block reachable from a group's `first` has that group |
| Arena.GroupedReached | js/block.js:73-75 | the converse of `FirstReaches`: a block in group `g` lies on the chain from `g`'s `first`, which exists, so membership is exactly reachability |
| Arena.RemovedOk | js/block.js:94-109 | `remove` keeps the structure invariant |
| Arena.ChainRemovedOk | js/block.js:113-128 | `removeChain` keeps the structure invariant |
| Arena.InsertedOk | js/block.js:150-172 | splicing an ungrouped chain after `t` keeps the structure invariant |
| Arena.InstalledOk | js/blockeditor.js:176 | an ungrouped chain put into an empty group keeps the structure invariant |
| Arena.PrependedOk | js/controlblock.js:130 | an ungrouped chain put in front of a non-empty group keeps the structure invariant |
| Arena.WithGroupOk | js/blockgroup.js:8-22 | a fresh group keeps the invariant and the drawing fits |
| Arena.WithBlockOk | js/block.js:7-43 | a fresh lone block keeps the invariant and the drawing fits |
| Arena.WithNestedGroup | js/controlblock.js:24-33 | the new groups are exactly the next `n` ids, each empty and owned by the block |
| Arena.NewControlOk | js/controlblock.js:5-43 | a fresh control block keeps the invariant, stands alone, and places each new group at (0, 0) |
| Arena.ControlBranch | js/controlblock.js:24-33 | branch `i` of a new control block is a new, empty group whose parent is the block |
| Operations.Without | js/block.js:94-109 | the reference for what `remove` does to a chain: the same list without `b` |
| Operations.RemovedSplices | js/block.js:94-109 | after `remove` the neighbours are joined, a removed head hands `first` to its successor, `b` is alone and ungrouped, and no other block changes group |
| Operations.RemovedOrder | js/block.js:94-109 | every other chain loses exactly `b` and keeps its order |
| Operations.ChainRemovedCuts | js/block.js:113-128 | after `removeChain` the predecessor ends its chain (or the group is left empty), `b` is a head, the cut-off blocks lose their group and no other block does |
| Operations.CutStops | js/block.js:113-128 | a chain that ran through `b` now stops right before it |
| Operations.SpliceJoins | js/block.js:133-172 | after the splice `t.next == b`, `b.prev == t`, and `t`'s old successor follows the chain's last block |
| Operations.SpliceOrder | js/block.js:133-172 | every chain `P ++ [t] ++ S` through `t` becomes `P ++ [t] ++ chain(b) ++ S` |
| Operations.InsertedGroups | js/block.js:155-162 | the inserted blocks take `t`'s group, nobody else changes group, and no group changes `first` |
| Operations.AppendedInserts | js/block.js:133-147 | `append` is `remove` followed by splicing the one-block chain of `b` after `t` |
| Operations.ChainAppendedInserts | js/block.js:150-172 | `appendChain` is `removeChain` followed by splicing the chain of `b` after `t` |
| Operations.GroupAppendedOk | js/blockgroup.js:24-28 | appending a lone, ungrouped block to an empty group keeps the invariant |
| Operations.GroupAppendOverwrites | js/blockgroup.js:24-28 | appending to a group that already has a `first` leaves the old head orphaned |
| Operations.GroupAppendStrands | js/blockgroup.js:24-28 | appending a block that has a `next` leaves the rest of its chain outside the group |
| Operations.ChainGroupedOk | js/controlblock.js:130 | putting a chain into a group (in front of its chain) keeps the invariant |
| Operations.ChainGroupedKeeps | js/controlblock.js:130 | grouping a chain keeps every block and group and what each was made with |
| Operations.ChainGroupedPlaces | js/controlblock.js:130 | afterwards `b` is the group's head and `first`, its chain is in the group, and the group's chain is `b`'s chain followed by the group's previous chain |
| Layout.StackedUnique | js/block.js:188-194 | two drawings stacked along the same chain agree on every block, so repeating `update` changes nothing |
| Layout.UpdatePosition | js/block.js:188-194 | a head sits at (0, 0), any other block right under its `prev`; only that block's position changes |
| Layout.LayOutBranches | js/controlblock.js:45-74 | branch `i` gets its connector and nested group at (15, h_i); other groups keep their positions |
| Layout.PlaceLoop | js/controlblock.js:48-63 | the loop places connector `i` at (15, h_i) and the groups as `PlaceBranches` says |
| Layout.PlaceBranchesAt | js/controlblock.js:48-63 | after the loop, branch `i`'s group is at (15, h_i) |
| Layout.UpdateSize | js/controlblock.js:45-74 | a control block lays out its branches and puts its main connector at its height; other blocks change nothing modelled |
| Layout.Update | js/block.js:175-185 | every block on the chain from `b` is stacked and laid out; nothing off the chain moves except the groups nested in it |
| Layout.LayoutKept | js/block.js:175-185 | a block off the restacked chain stays stacked and laid out |
| Layout.RootMoved | js/blockgroup.js:32-41 | moving a group without a parent, or changing the drag styling, keeps a laid-out chain laid out and a restacking a restacking |
| Workspaces.Workspace.constructor | js/blockeditor.js:18-40 | an empty, valid workspace |
| Workspaces.Workspace.NewBlock | js/block.js:7-43 | a fresh block at (0, 0), with no group, `prev` or `next` |
| Workspaces.Workspace.NewControlBlock | js/controlblock.js:5-43 | a fresh control block with `cnt \|\| 1` empty nested groups it owns and `cnt + 1` connector positions at (0, 0) |
| Workspaces.Workspace.AddBranches | js/controlblock.js:26-33 | the loop adds `n` groups owned by the block, each at (0, 0) |
| Workspaces.Workspace.Origins | js/controlblock.js:35-43 | the loop makes `n` connector positions at (0, 0) |
| Workspaces.Workspace.NewGroup | js/blockgroup.js:8-22 | a fresh group at (0, 0), without a parent or a `first` |
| Workspaces.Workspace.Translate | js/block.js:215-220 | only the block's position changes, to (x, y) |
| Workspaces.Workspace.TranslateBy | js/block.js:210-212 | only the block's position changes, by (x, y) |
| Workspaces.Workspace.GroupTranslate | js/blockgroup.js:36-41 | only the group's position changes, to (x, y) |
| Workspaces.Workspace.GroupTranslateBy | js/blockgroup.js:32-34 | only the group's position changes, by (x, y) |
| Workspaces.Workspace.Remove | js/block.js:94-109 | the structure becomes `Removed`, the workspace stays valid, and the old successor's chain is redrawn |
| Workspaces.Workspace.RemoveChain | js/block.js:113-128 | the structure becomes `ChainRemoved`; nothing is redrawn |
| Workspaces.Workspace.Append | js/block.js:133-147 | the structure becomes `Appended`; the chain of `b`'s old successor is redrawn, as the `remove` it calls does (js/block.js:103); in a group the chain from `b` is redrawn too; an ungrouped `t` with no old successor leaves the drawing unchanged; nothing else moves |
| Workspaces.Workspace.AppendChain | js/block.js:150-172 | the structure becomes `ChainAppended`; in a group the chain is redrawn, otherwise nothing moves |
| Workspaces.Workspace.GroupAppend | js/blockgroup.js:24-28 | `b` becomes the empty group's `first` and joins it; links and drawing are untouched |
| Workspaces.Workspace.PrependChain | js/controlblock.js:130 | the structure becomes `ChainGrouped` and the chain is redrawn |
| Workspaces.Workspace.GroupAppendChain | js/blockeditor.js:176 | into an empty group the chain becomes its chain; otherwise it is appended after the group's last block; the chain from `b` is redrawn and nothing else moves |
| Workspaces.Workspace.Connect | js/block.js:203-207 | index 0 appends the chain after `t`; a branch index of a control block puts it in front of that branch; any other index changes nothing; in a group, the moved chain is redrawn and laid out and nothing else moves; after an ungrouped `t` nothing moves |
| Workspaces.Workspace.HoverStart | js/connector.js:14-16 | the block shows the connector's path (path 0 for plain and start blocks) |
| Workspaces.Workspace.HoverEnd | js/connector.js:18-20 | the path is hidden again |
| Workspaces.Workspace.DragStart | js/block.js:308-310 | the block's group is styled as dragged |
| Workspaces.Workspace.DragEnd | js/block.js:313-315 | the block's group is no longer styled as dragged |
| Workspaces.Workspace.SetGroups | js/block.js:123-126 | the loop along `next` sets the group of every block of the chain, and only those |
| Workspaces.BranchOwned | js/controlblock.js:126-132 | the group connector `index` leads into exists, is nested in `t`, and has `t` as its parent |
| Attach.GroupPosition | js/block.js:243 | a global group is at its own position |
| Attach.BlockPosition | js/block.js:242-248 | a block's global position is its position plus its group's; an ungrouped block has none |
| Attach.BlockPositionFuel | js/block.js:242-248 | more fuel never changes a position that was found |
| Attach.AreaAt | js/block.js:254-274 | the connector areas: a start block has no area without an index; index 0 (or any index of a plain or start block) is the receiving area; a control branch is the area at its connector position |
| Attach.CandidateArea | js/startblock.js:46-52 | a dragged block has a connecting area exactly when it is not a start block and has a global position; the area is at that position |
| Attach.ConnectorAttachableAsWritten | js/connector.js:30-34 | the connector test throws exactly when the dragged block has no area; otherwise it is the intersection test |
| Attach.FirstConnector | js/block.js:278-284 | the first of the block's connectors, in index order, that matches; none before it matches |
| Attach.GroupAttachable | js/blockeditor.js:200 | a match found in a group lies in that group or in a nested group; an empty group has none |
| Attach.ChainAttachable | js/blockeditor.js:200 | a match on a chain lies in that chain's group or in a nested group |
| Attach.BlockAttachable | js/controlblock.js:143-151 | a match is a connector of the block itself or lies in one of its nested groups |
| Attach.NestedAttachable | js/controlblock.js:143-151 | a match found in the branches lies in a nested group |
| Attach.GroupAttachableNone | js/blockeditor.js:200 | a group has no match exactly when no block of its chain has one |
| Attach.ChainAttachableNone | js/blockeditor.js:200 | the chain from `x` has no match exactly when none of its blocks has one |
| Attach.ChainAttachableFirst | js/blockeditor.js:200 | the match on a chain is that of a block of the chain, and no earlier block of the chain has one |
| Attach.BlockAttachableOrder | js/controlblock.js:143-151 | a control block's nested groups are searched before its own connectors: a nested match is the result; otherwise the block's first matching connector is; there is none exactly when neither search finds one |
| Attach.NestedAttachableNone | js/controlblock.js:144-149 | the branches from `i` on have no match exactly when none of their groups has one |
| Attach.NestedAttachableFirst | js/controlblock.js:144-149 | the match found in the branches is that of branch `k`, and no earlier branch has one |
| Attach.ScanGroups | js/blockeditor.js:196-203 | a match comes from a scanned global group other than the skipped one; none is found exactly when no such group has one |
| Attach.ScanGroupsFirst | js/blockeditor.js:196-203 | the match returned is the first one in the order of the global groups |
| Attach.Attachable | js/blockeditor.js:196-203 | the attachee intersects the dragged block's connecting area; a start block, or a block without an area, attaches nowhere; a global dragged group never matches itself; with an area, nothing is found exactly when no other global group has a match |
| Attach.EditorAttachable | js/blockeditor.js:196-203 | the loop over the global groups returns `Attachable` |
| Attach.BlockAttachableScan | js/controlblock.js:143-151 | the loop over the branches, then over the connectors, returns `BlockAttachable` |
| Attach.ConnectorScan | js/block.js:278-284 | the loop over the connectors returns `FirstConnector` |
| Attach.AttachableAsWritten | js/connector.js:30-34 | for blocks other than start blocks it returns `Attachable`; for a start block it throws exactly when another global group holds a block |
| Attach.ScanGroupsNull | js/blockeditor.js:196-203 | without a connecting area the scan throws exactly when some other global group holds a block |
| Eval.Drives | js/eval.js:12 | `n` commands, each `drive(1)` |
| Eval.Repeat | js/eval.js:19-22 | `n` finished rounds drive `n` times what one round drives; a round that does not finish stops the loop |
| Eval.Eval | js/eval.js:10-24 | a run issues only `drive(1)` commands |
| Eval.EvalNext | js/eval.js:14 | the last block of a chain ends the run normally |
| Eval.Body | js/eval.js:20-21 | a block without branches throws; an empty first branch does nothing |
| Eval.CreateEval | js/eval.js:4-8 | a start block with a non-`'forward'` statement runs the chain below it |
| Eval.Forwards | js/eval.js:11 | the number of `'forward'` statements on a chain, at most its length |
| Eval.StraightChain | js/eval.js:10-15 | a chain of statements finishes and drives once per `'forward'` statement on it |
| Eval.LoopRounds | js/eval.js:17-24 | a loop whose rounds finish drives `cnt` times one round, then runs the rest of the chain |
| Eval.EvalBlock | js/eval.js:6 | the dispatch on the payload returns `Eval` |
| Eval.EvalStatement | js/eval.js:10-15 | `evalStatement` returns `Eval` |
| Eval.EvalLoop | js/eval.js:17-24 | the counting loop returns `Eval` |
| Eval.EvalBody | js/eval.js:20-21 | one round returns `Body` |
| Editors.GroupsIn | js/blockeditor.js:196-203 | every entry of the global groups list is a group of the workspace |
| Editors.DragKept | js/blockeditor.js:31-37 | a change that keeps blocks, groups, parents and grouped blocks keeps the drag state valid |
| Editors.ChainedChain | js/blockeditor.js:182-186 | linking distinct lone blocks makes them one whole chain in the given order |
| Editors.ChainedInside | js/blockeditor.js:182-186 | after linking, each block's `prev` is the block before it and its `next` the block after it; the ends are open |
| Editors.AppendLone | js/blockeditor.js:184 | appending a lone block to the open end of an ungrouped chain only links the two |
| Editors.ChainOfSuffix | js/blockeditor.js:182-186 | the chain of a block of a whole chain `bs` is the rest of `bs` from it |
| Editors.BlockGroupOk | js/blockeditor.js:169-179 | once the lone blocks are chained, the empty group gets them as its whole chain and the editor's invariant holds |
| Editors.Detaches | js/blockeditor.js:74 | the dragged block detaches exactly when it has a `prev` or its group has a parent |
| Editors.GroupChainOk | js/blockeditor.js:75-81 | after the dragged chain moves into a group without a parent, the dragged block heads it and the drag stays valid |
| Editors.AttacheeApart | js/blockeditor.js:109 | the attachee is off the dragged chain, so the chain may be linked after it |
| Editors.IndexOf | js/blockeditor.js:190 | the first index of `g`, or -1 exactly when it is absent |
| Editors.RemovedGroup | js/blockeditor.js:190 | only listed groups remain; when `g` is absent, `splice(-1, 1)` drops the last group |
| Editors.RemovedPresent | js/blockeditor.js:190 | a listed `g` loses its first occurrence, the others stay in order, and the list is one shorter; in a list without repeats `g` is then gone |
| Editors.NewGlobal | js/blockeditor.js:169-172 | a fresh group without a parent, added to the list, keeps it free of repeats and holding every group with blocks and without a parent |
| Editors.FillGlobal | js/controlblock.js:130 | filling a global group with a chain keeps every group with blocks and without a parent in the list |
| Editors.HeadGlobal | js/blockeditor.js:74-81 | a block heading a group without a parent heads a global group |
| Editors.DropGlobalOk | js/blockeditor.js:106-111 | the dragged block's group is global, leaves the list after the drop (which is one shorter), and every group with blocks and without a parent is still listed |
| Editors.FillOk | js/blockeditor.js:176-177 | an ungrouped whole chain put into an empty global group becomes its chain, in order, and nothing off the chain changes |
| Editors.StartDragThrows | js/connector.js:30-34 | with a start block dragged while another global group holds a block, the check as written throws |
| Editors.Editor.constructor | js/blockeditor.js:18-40 | no groups, no drag and no pending timer |
| Editors.Editor.CreateBlock | js/blockeditor.js:158-162 | a fresh lone block drawn at (0, 0) with no connector positions; the rest of the drawing is unchanged; the editor stays valid |
| Editors.Editor.CreateControlBlock | js/blockeditor.js:158-162 | a fresh lone control block with its empty branches, drawn at (0, 0) with its connectors and branch groups at (0, 0); the rest of the drawing is unchanged; the editor stays valid |
| Editors.Editor.IsGroupGlobal | js/blockeditor.js:149-155 | the backward search answers exactly whether `g` is a global group |
| Editors.Editor.CreateChain | js/blockeditor.js:182-186 | the loop links the lone blocks into one whole chain and changes nothing else |
| Editors.Editor.CreateBlockGroup | js/blockeditor.js:169-179 | a new global group at (x, y); given blocks become its chain, in order, each in the group, stacked and laid out; no other block's links or group and no other group's `first` change; only the given blocks and their nested groups are redrawn |
| Editors.Editor.NewGlobalGroup | js/blockeditor.js:169-173 | a fresh, empty group without a parent, at (x, y), joins the global groups; nothing else changes |
| Editors.Editor.FillGroup | js/blockeditor.js:176-177 | the lone blocks are chained and become the empty group's chain, stacked and laid out; nothing off the chain changes, and only the chain is redrawn |
| Editors.Editor.MouseDown | js/blockeditor.js:127-146 | a left-button press starts a drag of the block at the pointer; other buttons change nothing |
| Editors.Editor.MouseMove | js/blockeditor.js:42-99 | during a drag: a check is pending; a detaching chain moves into a fresh global group placed at the block's global position, and is laid out there; the dragged block then heads a global group, which moves by the pointer delta over the scale; only the first move marks it as dragged; no hover changes, and without a detach no block moves; without a drag nothing changes |
| Editors.Editor.MoveDragged | js/blockeditor.js:83-97 | a check is pending; the first move marks the group as dragged; the group, which is global, moves by (dx, dy); nothing else in the drawing changes |
| Editors.Editor.DetachMove | js/blockeditor.js:74-97 | the detached chain moves into a fresh global group at the block's global position plus (dx, dy), laid out, styled as dragged; only the chain and its nested groups are redrawn |
| Editors.Editor.DetachDragged | js/blockeditor.js:74-81 | the chain from `b` moves into a fresh group at the block's global position, which joins the global groups; the chain is laid out, and only it and its nested groups are redrawn |
| Editors.Editor.Detach | js/blockeditor.js:75-81 | the chain from `b` moves into a fresh group without a parent, placed at the block's global position (the origin when it has none); the chain is laid out, and only it and its nested groups are redrawn |
| Editors.Editor.TimerFire | js/blockeditor.js:51-70 | the attachee becomes `Attachable`, the hover moves from the old to the new attachee, and the timer is no longer pending |
| Editors.Editor.TimerFireAsWritten | js/blockeditor.js:51-70 | the callback throws exactly for a dragged start block when another global group holds a block, and then the timer stays pending; otherwise the attachee, the hover and the timer end as `TimerFire` says |
| Editors.Editor.MouseUp | js/blockeditor.js:102-120 | a drag ends; with an attachee the chain is connected there and its temporary group, which was global, leaves the global groups, which lose exactly it; the drag state is cleared |
| Editors.Editor.Drop | js/blockeditor.js:106-112 | the attachee's hover ends; the chain is connected at the attachee, laid out there, and only it and its nested groups are redrawn; its group, which was global, leaves the global groups, which are one shorter |
| Editors.Editor.RemoveBlockGroup | js/blockeditor.js:189-192 | the global groups become `RemovedGroup` of the old list |

## Left out

- Rendering is not modelled: SVG elements, paths, CSS classes, DOM insertion and removal, the surface and its scale. The scale is a parameter `s > 0` of `MouseMove`.
- Browser events and the 40 ms timer are not modelled as such. They become method calls, and a scheduled check is the `pending` flag.
- Bounding-box measurement (`getBBox`) is an input `Option<Size>`. A failed measurement is `None`.
- `Workspaces.Workspace.NewGroup`: every group's height is 0. The control block's layout reads a group's `size()`, which js/blockgroup.js does not define, so every branch is laid out at its minimum height.
- A group's `update()` is not modelled. js/blockgroup.js does not define it, so the model does not propagate layout to ancestor blocks.
- The robot is not modelled beyond its `drive` commands, which form the trace of a run.
- `Attach.GroupPosition`, `Attach.BlockPosition` and `Attach.GlobalPosition` follow at most as many nestings as there are groups (fuel). When the fuel runs out, `GlobalPosition` gives no position.
- `Editors.Editor.Detach`: the fresh group is placed at `DetachPoint`, which falls back to the origin when no global position is found.
- `Attach.NestedAttachable`: the attachee search (`Attach.GroupAttachable`, `Attach.Attachable`) follows nested groups to a depth of the number of groups (fuel). No lemma shows that this depth is always enough.
- `Workspaces.Workspace.Connect`: a branch index may move a chain into a branch of a block on that same chain. The resulting nesting cycle is not excluded by the invariant.
- `Attach.GroupAttachable`: the coarse bounding-rectangle test before the scan of a group's blocks is not modelled. The group's `attachable` is not defined in js/blockgroup.js; the model scans the group's chain in order.
- `Eval.Eval`: nested loop bodies are followed to a fuel bound of the number of groups. A loop with a negative count evaluates its first round and then reports that it never ends; the rounds after the first are not modelled.
- `Eval.Eval`: a loop payload whose `cnt` is undefined is not modelled. The count is always an integer.
- `Editors.Editor.MouseDown` requires that no drag is in progress.
- `Editors.Editor.TimerFire` requires that a dragged block has already moved. This leaves out a timer that fires after a new drag started but before its first move.
- `Editors.Editor.CreateChain` and `Editors.Editor.CreateBlockGroup` require the blocks to be distinct and lone, as `createBlock` makes them. An empty `blocks` sequence stands for an absent argument.
- `Editors.Editor.MouseUp`: the contract does not state the drawing after the drop (the drag styling removed, the hover ended).
- `Editors.Editor.RemoveBlockGroup`: removing the group's drawing is not modelled.
- `Workspaces.Workspace.NewControlBlock` requires `cnt >= 0` when a count is given. A negative count gives the block no connectors at all, and its first `updateSize` then reads connector position 0, which does not exist (js/controlblock.js:35-43, js/controlblock.js:72).
- A block's `data` payload is a separate field of `Info`. Other fields of `data` are not modelled.
- `onConnect`, the block dialog, the mouse tool and the application entry point are not part of this model.

## Findings

| source | as written | input that shows it | evidently intended | confidence | as-written member | corrected member |
|---|---|---|---|---|---|---|
| js/connector.js:30-34 with js/startblock.js:46-48 | the timer callback passes the dragged block's `connectorArea()` to `rectsIntersect`; for a start block that is `null`, so reading `width` throws, the callback ends before `t = null`, and no later move schedules another check | drag the start block while another global group holds a block | a block with no connecting area attaches nowhere, and the timer is cleared | not executed | Editors.Editor.TimerFireAsWritten, Attach.AttachableAsWritten, Editors.StartDragThrows | Editors.Editor.TimerFire, Attach.Attachable |
