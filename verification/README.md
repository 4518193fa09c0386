# Verified models of the demo page's Vue and of two thread demos

The repository is mostly demonstrations of libraries. What it contains itself
is the full source of Vue 2.5.16, which its demo page runs, and two programs in
which two threads take turns on a monitor. This project models the algorithms
in them that are hard to get right and proves that they are right, or exactly
when they are.

- **Patcher** (`Dom`, `VNodes`, `ChildLists`, `Diff`, `Windows`, `Keys`,
  `DiffSteps`, `Markup`, `Patch`, `Conservation`). The four-index diff edits a
  mutable document. After every patch the document is node by node what building
  the new tree from scratch would give, whatever the old tree was. Keyed children
  keep their elements. Only the keys of *new* siblings need to be distinct for the
  first result; the second needs it of the old ones as well.
- **Reactivity and scheduler** (`Getters`, `Subscriptions`, `Scheduler`,
  `Consistency`, `Turns`, `Reactivity`, `Rally`, `NextTick`). Dependencies are
  collected while getters run, computed properties are cached, watchers are run in
  batches. When a flush ends, every active watcher holds what evaluating its getter
  from scratch gives, whatever the callbacks wrote, tore down or created meanwhile.
- **Templates** (`Children`, `Templates`, `Contents`, `Optimizer`, `Codegen`,
  `Hoisting`, `StaticInFor`, `Flatness`). A template has a meaning of its own (`Templates.Render`);
  optimizing it, generating a render function, hoisting static trees and running the
  result over and over with one cache gives that meaning up to the marks that
  hoisting leaves. `Contents` says independently of it what is there to see of a
  template, and every render shows exactly that.
- **HTML parser** (`Html`) and **v-model paths** (`ModelPath`).
- **keep-alive** (`KeepAlive`, `Activation`).
- **Two threads on a monitor** (`Monitor`).

`Sequences` holds what several parts share. `dafny verify dfyconfig.toml` checks
everything.

Where the code falls short of what one would expect of it:

- A computed property that was torn down is not told of writes any more. It goes on
  serving its cached value, which is right exactly while its getter gives what it gave
  at the teardown (`Consistency.StaleExactly`). If it is dirty and read again, it
  subscribes only to deps it did not have before (`Consistency.RereadSubscribes`). The
  promises about values are made for getters that reach no torn-down computed property.
- The loop of `flushSchedulerQueue` counts a watcher only if it is queued again during
  its own run. Two watchers whose callbacks write each other's cells are never counted,
  and the loop does not end (`Rally.PlayForever`). It does end, within 101 runs for each
  watcher, if no callback writes what a watcher with a smaller id can read or creates a
  watcher that is not a computed property (`Turns.Tame`,
  `Reactivity.Reactor.FlushSchedulerQueue`).
- `markStaticRoots` flags the children of a v-for element as being inside a list, but
  not what is inside the v-else blocks of an element that has both v-for and v-if. The
  rounds of such a list share one static tree (`StaticInFor.SharesExactly`).
- `is` on a platform tag is not recognised as a component when the normalization is
  chosen (`Flatness.FlatExactly`).

## How the sources are modelled

- A vnode is a value with an identity; its `elm` slot is an entry of the patcher's map
  `elm`. The document is a value with parent and child lists, held in a field of the
  class `Patcher` that its methods update.
- Deps, watchers, `Dep.target`, the target stack and the scheduler's variables are the
  fields of one class, `Reactor`; deps and watchers are entries of maps in it.
- Getters are expressions over cells and computed properties; the callback of a watcher
  is a function that yields what the callback does in turn: write, tear down, read, create
  a cell, create a watcher. `Turns` says what one turn of the flush loop does as a relation
  between states; the loop's contract gives the trace of the states it went through.
- Static marks are written onto the nodes by returning the marked node. The loops of the
  optimizer are the loops of the source.
- Generated code is a tree with one constructor for each runtime helper instead of a string. The
  JavaScript inside a template is a parameter (`World`) that can be any function of the
  environment, and so are the components that are registered.
- `Templates.Render` says what a template means directly: v-for outside v-if outside the
  element. It knows neither static marks nor render functions.
- The parser reads tokens. Methods that loop over indices or fields are methods of classes
  with the same fields, each proved against a function, and the properties are proved about
  that function.
- The two thread programs are one step relation: the bodies are the same up to the mark they
  print, and `Condition.await`, `signalAll` and `unlock` do what `wait`, `notifyAll` and leaving
  `synchronized` do.

## Model

| member | source | states |
|---|---|---|
| Dom.InsertValid | springboot/src/main/resources/static/js/vue.js:5324-5326 | inserting before a sibling keeps parent and child lists in agreement; an attached node is moved, as section 4.2.3 of the WHATWG DOM Standard says |
| Dom.InsertSibling | springboot/src/main/resources/static/js/vue.js:5651-5661 | moving a child among its siblings changes that child list only: it ends up directly in front of the reference, at the end without one, where it was if it is the reference itself, and the others keep their order |
| Dom.DetachChild | springboot/src/main/resources/static/js/vue.js:5497-5503 | removing a node takes exactly its position out of its parent's child list |
| Dom.MoveLeft | springboot/src/main/resources/static/js/vue.js:5821-5825 | moving the last old child in front of the first one is a rotation of that stretch of the child list |
| Dom.MoveRight | springboot/src/main/resources/static/js/vue.js:5816-5820 | moving the first old child behind the last one is the opposite rotation, found through nextSibling |
| Diff.ShowPatched | springboot/src/main/resources/static/js/vue.js:5880-5938 | patching one child in place leaves every other child rendered and the order as it is |
| Diff.ShowCreated | springboot/src/main/resources/static/js/vue.js:5523-5588 | creating one child at a position gives exactly the list with that child spliced in |
| Diff.ShowRemoved | springboot/src/main/resources/static/js/vue.js:5740-5752 | removing one child leaves exactly the others, in order |
| Keys.NotFound | springboot/src/main/resources/static/js/vue.js:5827-5832 | when the key index (built once), or for a vnode without a key the linear search together with the comparison with the end of the window, finds nothing, no old child still in the window is the same vnode as the new one; by key there is none in the whole old list, although slots were set to undefined meanwhile |
| Keys.Found | springboot/src/main/resources/static/js/vue.js:5834-5838 | an index entry that is the same vnode still holds its old child, even if slots were emptied since the index was built |
| Keys.Paired | springboot/src/main/resources/static/js/vue.js:5808-5838 | with distinct keys on both sides, matching the pair a branch chose keeps every keyed match so far |
| DiffSteps.StepStartStart | springboot/src/main/resources/static/js/vue.js:5808-5811 | the branch for two equal starts keeps the diff invariant: the DOM children are the finished new prefix, the live old window, the finished new suffix |
| DiffSteps.StepEndEnd | springboot/src/main/resources/static/js/vue.js:5812-5815 | the same for two equal ends |
| DiffSteps.StepStartEnd | springboot/src/main/resources/static/js/vue.js:5816-5820 | the same for an old start that moves right |
| DiffSteps.StepEndStart | springboot/src/main/resources/static/js/vue.js:5821-5825 | the same for an old end that moves left |
| DiffSteps.StepMoved | springboot/src/main/resources/static/js/vue.js:5834-5838 | the same for an old child found by key or search and moved in front of the window |
| DiffSteps.StepCreated | springboot/src/main/resources/static/js/vue.js:5831-5842 | the same for a new child that is created in front of the window |
| DiffSteps.StepRemoved | springboot/src/main/resources/static/js/vue.js:5740-5752 | the same for one old child that is removed at the end |
| Conservation.Conserved | springboot/src/main/resources/static/js/vue.js:5783-5853 | the old children are the matched and the removed, the new children the matched and the created; matched elements come from a sameVnode pair, created ones did not exist before, none is shared |
| Markup.RenderedShows | springboot/src/main/resources/static/js/vue.js:5523-5588 | a rendered vnode tree shows the markup of the vnode: kinds, texts and children all the way down |
| Markup.ShowsOne | springboot/src/main/resources/static/js/vue.js:5880-5938 | a document node shows at most one markup, so the markup pins the subtree down |
| Markup.SameAsFresh | springboot/src/main/resources/static/js/vue.js:5880-5938 | a patched subtree and a subtree built from scratch for the same vnode show the same markup, in any two documents |
| Patch.Patcher.Insert | springboot/src/main/resources/static/js/vue.js:5651-5661 | insert: without a parent nothing happens; a reference counts only if it is a child of the parent |
| Patch.Patcher.CreateElm | springboot/src/main/resources/static/js/vue.js:5523-5588 | builds exactly the vnode's tree out of new nodes, points every vnode at its node, and adds the root at the place asked for |
| Patch.Patcher.CreateChildren | springboot/src/main/resources/static/js/vue.js:5663-5672 | builds the children in order under their new parent |
| Patch.Patcher.CreateKeyToOldIdx | springboot/src/main/resources/static/js/vue.js:5457-5465 | the index sends each key in the window to the last position that has it |
| Patch.Patcher.FindIdxInOld | springboot/src/main/resources/static/js/vue.js:5873-5878 | the first defined sameVnode slot in [start, end), or none; the end position itself is not looked at |
| Patch.Patcher.AddVnodes | springboot/src/main/resources/static/js/vue.js:5720-5724 | creates the rest of the new children in front of the reference, keeping the diff invariant |
| Patch.Patcher.RemoveVnodes | springboot/src/main/resources/static/js/vue.js:5740-5752 | removes the rest of the old children, skipping emptied slots |
| Patch.Patcher.PlaceByKey | springboot/src/main/resources/static/js/vue.js:5826-5845 | the last branch of the loop: index once, then move a match or create |
| Patch.Patcher.UpdateChildren | springboot/src/main/resources/static/js/vue.js:5783-5853 | ends with the parent showing exactly the new children in order, every new vnode at its node, everything else in the document untouched; with distinct keys every keyed new vnode with a sameVnode old sibling has that sibling's element, and what was matched is maximal: no created child is sameVnode with a removed one, level by level; terminates as the windows shrink |
| Patch.Patcher.PatchVnode | springboot/src/main/resources/static/js/vue.js:5880-5938 | the old root node stays and now renders the new vnode; only nodes of the old subtree were edited |
| Patch.Patcher.PatchElem | springboot/src/main/resources/static/js/vue.js:5921-5931 | the four cases of old and new children, absent or present |
| Patch.Patcher.ReplaceNode | springboot/src/main/resources/static/js/vue.js:6109-6163 | builds the new tree behind a node and takes the node out: the new root is a new node at the node's position, only the parent is edited |
| Patch.Patcher.Patch | springboot/src/main/resources/static/js/vue.js:6066-6168 | afterwards the document shows the new vnode at the old root's place and the parent's other children are as before. If key, kind, tag, presence of data and input type agree, the new root has the old root's node and its children are taken over; otherwise it has a node that did not exist before, and the old root is no child of the parent any more. Mounting on an element puts a new tree in its place; without a new vnode the document is left alone |
| VNodes.SameVnodeExactly | springboot/src/main/resources/static/js/vue.js:5432-5455 | sameVnode and sameInputType, in one condition: key, kind and tag, presence of data, and for inputs equal types or two types of text |
| Patch.PatchedRoot | springboot/src/main/resources/static/js/vue.js:6081-6083 | a root that can be patched in place keeps its node |
| Patch.NewRoot | springboot/src/main/resources/static/js/vue.js:6109-6163 | any other root is a new node, and the old one leaves the parent |
| Getters.OnlyTouched | springboot/src/main/resources/static/js/vue.js:987-999 | a getter's value and the set of cells it reads depend only on those cells, through computed properties and conditionals |
| Subscriptions.AddDepGood | springboot/src/main/resources/static/js/vue.js:3162-3171 | addDep keeps the two-way subscription invariant during evaluation (membership is deps and newDeps together) and the computed cache |
| Subscriptions.AddDepEvaluated | springboot/src/main/resources/static/js/vue.js:3162-3171 | addDep collects exactly that dep for the running watcher and touches no other slot |
| Subscriptions.AddDepNamed | springboot/src/main/resources/static/js/vue.js:3162-3171 | a watcher depends only on cells that its getter can mention, directly or through computed properties |
| Subscriptions.PushGood | springboot/src/main/resources/static/js/vue.js:713-716 | pushing a watcher that is not being evaluated keeps the invariant |
| Subscriptions.CleanupLinked | springboot/src/main/resources/static/js/vue.js:3176-3194 | after cleanupDeps a watcher is in a dep's subs exactly when the dep was read by the last evaluation |
| Subscriptions.FinishGood | springboot/src/main/resources/static/js/vue.js:3176-3194 | popTarget and cleanupDeps together re-establish the whole invariant |
| Subscriptions.FinishRan | springboot/src/main/resources/static/js/vue.js:3135-3159 | one get changes nothing but computed caches and the watcher's own deps, which become what it collected |
| Subscriptions.FillGood | springboot/src/main/resources/static/js/vue.js:3246-3249 | storing a computed value and clearing the flag keeps the invariant when the value is the from-scratch one |
| Consistency.Written | springboot/src/main/resources/static/js/vue.js:993-1021 | a write can invalidate only watchers subscribed to that cell: value current, or queued, or about to be notified |
| Consistency.Marked | springboot/src/main/resources/static/js/vue.js:3200-3203 | marking a computed property dirty discharges its notification |
| Consistency.Queued | springboot/src/main/resources/static/js/vue.js:3206-3208 | queueing a watcher discharges its notification |
| Consistency.RunDone | springboot/src/main/resources/static/js/vue.js:3215-3240 | running a watcher taken off the queue makes it current and disturbs no other |
| Consistency.TornDownStable | springboot/src/main/resources/static/js/vue.js:3266-3282 | a watcher torn down outside evaluation is in no subs list, and every promise to the others stands |
| Consistency.NotifiedStable | springboot/src/main/resources/static/js/vue.js:699-705 | telling the subscribers one by one discharges their notifications: computed properties are marked, the others queued |
| Consistency.StaleExactly | springboot/src/main/resources/static/js/vue.js:3266-3282 | for any heap: after a cached computed property was torn down and any sequence of writes was made and told, it serves what it held, and that is the right value exactly if its getter now gives what it gave at the teardown |
| Consistency.StaysDeaf | springboot/src/main/resources/static/js/vue.js:3200-3203 | no write ever reaches such a property: it is in no subs list, not dirty, and its slots stay as they are |
| Consistency.RereadSubscribes | springboot/src/main/resources/static/js/vue.js:3162-3194 | read again after its teardown, whatever cells it reads, it is subscribed to exactly those it did not depend on before |
| Consistency.StaleAfterTeardown | springboot/src/main/resources/static/js/vue.js:3498-3511 | the smallest instance: one cell, one computed property, one write |
| Consistency.AddWatcherStable | springboot/src/main/resources/static/js/vue.js:3082-3130 | creating a watcher changes nothing for the others |
| Consistency.AddCellStable | springboot/src/main/resources/static/js/vue.js:966-1023 | creating a cell with its dep changes nothing for the watchers |
| Reactivity.CacheHit | springboot/src/main/resources/static/js/vue.js:3498-3511 | a computed property that is not dirty and has no torn-down one below it holds the from-scratch value |
| Reactivity.ReadMeets | springboot/src/main/resources/static/js/vue.js:3498-3511 | the computed getter returns the from-scratch value and hands the reader exactly the cells that evaluation would touch |
| Reactivity.GetEnds | springboot/src/main/resources/static/js/vue.js:3135-3159 | get returns the from-scratch value and its deps are exactly the cells touched |
| Reactivity.DependStep | springboot/src/main/resources/static/js/vue.js:3254-3261 | depend hands over the computed property's deps one by one |
| Reactivity.Reactor.AddDep | springboot/src/main/resources/static/js/vue.js:3162-3171 | the method does what the specification function WithDep says |
| Reactivity.Reactor.CleanupDeps | springboot/src/main/resources/static/js/vue.js:3176-3194 | the loop and the swaps do what CleanedUp says |
| Reactivity.Reactor.Evaluate | springboot/src/main/resources/static/js/vue.js:3140-3140 | evaluating a getter with tracking and caches gives the from-scratch value and collects exactly the cells touched |
| Reactivity.Reactor.ReadComputed | springboot/src/main/resources/static/js/vue.js:3498-3511 | computedGetter: evaluate if dirty, depend, return the value |
| Reactivity.Reactor.EvaluateComputed | springboot/src/main/resources/static/js/vue.js:3246-3249 | afterwards the property is not dirty and the invariant holds |
| Reactivity.Reactor.Depend | springboot/src/main/resources/static/js/vue.js:3254-3261 | the reader collects exactly the property's deps |
| Reactivity.Reactor.Get | springboot/src/main/resources/static/js/vue.js:3135-3159 | push, evaluate, pop, clean up: from-scratch value, exact deps, nothing else changed |
| Reactivity.Reactor.Notify | springboot/src/main/resources/static/js/vue.js:699-705 | every subscriber of the copied list is marked or queued, in order, after which no notification is outstanding; queueWatcher is called for no one else |
| Reactivity.Reactor.Update | springboot/src/main/resources/static/js/vue.js:3200-3210 | lazy watchers are marked, the others queued |
| Reactivity.Reactor.QueueWatcher | springboot/src/main/resources/static/js/vue.js:3050-3071 | queues a watcher once, exactly where QueuedIn says; during a flush that is by id behind the running one, and the pending part stays strictly increasing |
| Reactivity.Reactor.SetCell | springboot/src/main/resources/static/js/vue.js:1004-1021 | the write takes effect, exactly the subscribers are told, and the consistency invariant holds again when it returns; writing the same value does nothing |
| Reactivity.Reactor.TeardownWatcher | springboot/src/main/resources/static/js/vue.js:3266-3282 | inactive afterwards, and in no subs list |
| Reactivity.Reactor.ReadAtTop | springboot/src/main/resources/static/js/vue.js:3498-3511 | outside evaluation too, a computed property reads as its from-scratch value |
| Reactivity.Reactor.Run | springboot/src/main/resources/static/js/vue.js:3215-3240 | re-evaluates an active watcher, and only if the value changed stores it and runs the callback, whose effects happen in turn |
| Turns.RunCalls | springboot/src/main/resources/static/js/vue.js:3215-3240 | what a run did: the callback is called exactly if the value computed from scratch differs from the stored one, with the new value and the old one, on unchanged cells, and the new one is stored by then; otherwise nothing but caches changes |
| Turns.EffectsDone | springboot/src/main/resources/static/js/vue.js:3224-3238 | what a callback does has been done afterwards: every cell holds what it was set to last, exactly the watchers torn down are inactive, new cells are there |
| Reactivity.Reactor.Perform | springboot/src/main/resources/static/js/vue.js:3215-3240 | one effect of a callback, between flushes or while one runs: a write, a teardown, a read, a new cell, a new watcher; the invariant holds before and after |
| Reactivity.Reactor.RunCallback | springboot/src/main/resources/static/js/vue.js:3224-3238 | all effects of a callback in turn; queueWatcher is called only for watchers that can mention a written cell |
| Reactivity.Reactor.FlushSchedulerQueue | springboot/src/main/resources/static/js/vue.js:2936-2997 | when the loop ends by itself every active watcher holds its getter's value on the current cells; the break means some watcher ran more than 100 times; runs that only queue at or above their own id are in nondecreasing id order, at most 101 per watcher; and if no callback writes a cell that the getter of a watcher with a smaller id can mention, and none creates a watcher the scheduler would run, all runs are like that and the flush ends within 101 runs for each watcher there was before it |
| Reactivity.Reactor.DefineReactive | springboot/src/main/resources/static/js/vue.js:966-1023 | a new cell with an empty subscriber list, between flushes or while one runs |
| Reactivity.Reactor.Watch | springboot/src/main/resources/static/js/vue.js:3082-3130 | a new watcher with the next id, between flushes or while one runs; a computed property stays dirty, any other is evaluated at once and is current |
| Turns.TameCalls | springboot/src/main/resources/static/js/vue.js:3050-3071 | under that condition everything queued while a watcher runs has an id at or above its own |
| Turns.StaysTame | springboot/src/main/resources/static/js/vue.js:2977-2997 | the condition, checked before a flush, holds throughout it |
| Scheduler.Sorted | springboot/src/main/resources/static/js/vue.js:2973-2973 | sorting the queue by id gives a strictly increasing list of the same ids |
| Scheduler.SpliceKeeps | springboot/src/main/resources/static/js/vue.js:3057-3063 | the splice keeps queue[index+1..] strictly increasing and has exactly its ids |
| Scheduler.PushKeeps | springboot/src/main/resources/static/js/vue.js:3053-3055 | outside a flush the queue lists exactly the ids in has |
| Scheduler.OrderlyRun | springboot/src/main/resources/static/js/vue.js:2977-2997 | one more run at or above the last id keeps the order and the count of runs per id |
| Scheduler.HeadTurn | springboot/src/main/resources/static/js/vue.js:2977-2997 | one turn of the loop, whatever its watcher queues, keeps the flush invariant |
| Scheduler.HeadBound | springboot/src/main/resources/static/js/vue.js:2977-2997 | while the break has not been taken no id has run more than 101 times, so the whole log is bounded |
| Scheduler.RunsBounded | springboot/src/main/resources/static/js/vue.js:2983-2996 | if no id occurs more than so many times, the list is no longer than that times the number of ids |
| Rally.RallyOn | springboot/src/main/resources/static/js/vue.js:2977-2997 | on every trace of the flush loop of a reactor with two cells and two watchers whose callbacks increment each other's cell, one watcher is pending at every point and the break is never taken |
| Rally.PlayForever | springboot/src/main/resources/static/js/vue.js:2961-2997 | such a reactor, built and written to once, is still running its flush after any number of turns |
| NextTick.Loop.NextTick | springboot/src/main/resources/static/js/vue.js:1834-1853 | the callback goes to the end; a timer is started exactly if none is outstanding |
| NextTick.Loop.QueueFlush | springboot/src/main/resources/static/js/vue.js:3066-3069 | a flush of the scheduler is registered only if none is waiting |
| NextTick.Loop.Perform | springboot/src/main/resources/static/js/vue.js:1840-1841 | exactly the callbacks given to nextTick are registered, in order, and one flush of the scheduler for the first watcher queued while none was waiting |
| NextTick.Loop.FlushCallbacks | springboot/src/main/resources/static/js/vue.js:1755-1762 | everything registered before is called, once and in order; exactly what these callbacks register is waiting afterwards, for one new timer if there is any; executed, rest and callbacks together are always the registration order |
| Children.NormalizeArrayChildren | springboot/src/main/resources/static/js/vue.js:2214-2260 | equals Norm; up to generated keys and static marks it is flattening and merging; no two adjacent text nodes |
| Children.NormErase | springboot/src/main/resources/static/js/vue.js:2214-2260 | normalizing any nested array is flattening it, dropping undefined, booleans and empty strings, and merging neighbouring text |
| Children.MergeJoin | springboot/src/main/resources/static/js/vue.js:2223-2232 | normalizing a nested array first and joining at the seam is the same as normalizing in one go |
| Children.NormNoAdjacentText | springboot/src/main/resources/static/js/vue.js:2226-2246 | the result has no two adjacent text nodes |
| Children.NormPieces | springboot/src/main/resources/static/js/vue.js:2214-2260 | every character of text and every other node comes out once, in order |
| Children.NormIdempotent | springboot/src/main/resources/static/js/vue.js:2214-2260 | normalizing a second time changes nothing |
| Children.NormIgnoresMarks | springboot/src/main/resources/static/js/vue.js:2214-2260 | children that differ in generated keys and static marks only are normalized alike |
| Children.NormKeys | springboot/src/main/resources/static/js/vue.js:2247-2254 | the keys generated for v-for lists are distinct within a normalized array, and say at which place of which list |
| Children.ListKeyed | springboot/src/main/resources/static/js/vue.js:2247-2254 | in a v-for list every element without a key gets the generated one, the others keep theirs |
| Children.SimpleNormalizeChildren | springboot/src/main/resources/static/js/vue.js:2189-2196 | lists among the children are spliced in one level deep; without any the array itself is returned |
| Children.SplicedErased | springboot/src/main/resources/static/js/vue.js:2189-2196 | simple normalization does not look at marks |
| Templates.GetNormalizationType | springboot/src/main/resources/static/js/vue.js:10462-10483 | 2 if some child or v-else block needs full normalization, else 1 if some may be a component, else 0 |
| Flatness.NormTypeExactly | springboot/src/main/resources/static/js/vue.js:10462-10487 | exactly when 2 and when 1 is chosen, in terms of the children and the v-else blocks that can stand for them |
| Optimizer.MarkStatic | springboot/src/main/resources/static/js/vue.js:9850-9880 | the first pass with its loops computes Marked |
| Optimizer.MarkStaticRoots | springboot/src/main/resources/static/js/vue.js:9882-9910 | the second pass with its loops computes Rooted |
| Optimizer.Optimize | springboot/src/main/resources/static/js/vue.js:9833-9841 | both passes in turn leave exactly the marks that are owed, on every node |
| Optimizer.MarkedExactly | springboot/src/main/resources/static/js/vue.js:9850-9940 | a node is marked static exactly if no part of it depends on an expression and no template with v-for is above it with only templates between |
| Optimizer.SteadyExactly | springboot/src/main/resources/static/js/vue.js:9912-9927 | the nodes that do not depend on an expression, said once for the whole node: texts, and platform elements without key, is, v-for and v-if whose attributes are fixed and whose children are such nodes |
| Optimizer.OptimizedExactly | springboot/src/main/resources/static/js/vue.js:9833-9910 | every mark of the optimized template: static, static root (static, with more to it than one text, none inside another), static in v-for |
| Optimizer.StaticBelow | springboot/src/main/resources/static/js/vue.js:9863-9869 | static is closed downward |
| Optimizer.OptimizedHoistable | springboot/src/main/resources/static/js/vue.js:9882-9910 | every static root is really static, has children, and has no other root inside |
| Hoisting.SteadyRender | springboot/src/main/resources/static/js/vue.js:9912-9927 | a static node renders the same in every environment |
| Hoisting.SteadyKeyless | springboot/src/main/resources/static/js/vue.js:3919-3923 | no vnode that renderStatic marks has a key of the user's to lose |
| Hoisting.MarkErased | springboot/src/main/resources/static/js/vue.js:3903-3923 | marking a static tree, or each vnode of a static template's array, changes marks only |
| Hoisting.HoistPreserves | springboot/src/main/resources/static/js/vue.js:10139-10176 | for any template with sound marks, any environment and any valid cache of static trees, running the generated code gives what the template means, up to marks, and keeps the cache valid; each index names its own function |
| Hoisting.GenOwns | springboot/src/main/resources/static/js/vue.js:10172-10176 | every static render function is that of a static root of the template and stands at the index that was generated for it |
| Hoisting.StaticRun | springboot/src/main/resources/static/js/vue.js:3869-3888 | one renderStatic, cached or fresh, inside v-for or not |
| Hoisting.EvalMarked | springboot/src/main/resources/static/js/vue.js:3903-3923 | running generated code leaves only trees in the cache that are marked static, each under the key of its own index |
| Hoisting.EvalKeeps | springboot/src/main/resources/static/js/vue.js:3875-3880 | a cached static tree whose root is in no list is never rendered again: whatever code runs, it stays the cached one |
| Hoisting.LoopPreserves | springboot/src/main/resources/static/js/vue.js:10242-10272 | v-for becomes _l around the rest of the element |
| Hoisting.BranchPreserves | springboot/src/main/resources/static/js/vue.js:10205-10240 | v-if and its blocks become nested conditionals |
| Hoisting.BasePreserves | springboot/src/main/resources/static/js/vue.js:10432-10456 | templates become arrays, elements become _c with the chosen normalization, a lone v-for child becomes the children array; what such a node means is pinned by Contents.RenderContent |
| Hoisting.OptimizedRender | springboot/src/main/resources/static/js/vue.js:9833-9841 | optimizing a template does not change its meaning |
| Hoisting.RendersPreserved | springboot/src/main/resources/static/js/vue.js:3869-3888 | over any sequence of renders with changing data and one shared cache, each render gives what the template means for the data of that moment, up to marks |
| Hoisting.RendersContent | springboot/src/main/resources/static/js/vue.js:3869-3888 | each of these renders shows exactly the contents of the template for the data of that moment: the branches chosen, the rounds of the lists, every tag with key and attributes, every comment and every character of text, in order |
| Contents.RenderContent | springboot/src/main/resources/static/js/vue.js:4354-4415 | the same for the meaning of any node, in any environment, for all data and scripts, where no functional component is involved; with its own account of v-for, v-if, attributes, keys, is and interpolation |
| Contents.NormContent | springboot/src/main/resources/static/js/vue.js:2214-2260 | normalizing a children array keeps its contents |
| Contents.SameContent | springboot/src/main/resources/static/js/vue.js:3903-3923 | what is the same up to marks has the same contents |
| Hoisting.OptimizedLikePlain | springboot/src/main/resources/static/js/vue.js:10127-10137 | optimized and unoptimized code render the same vnode tree, up to marks |
| Hoisting.Instance.RenderStatic | springboot/src/main/resources/static/js/vue.js:3869-3888 | whatever was rendered before and whatever the data is, the tree is what the static root that owns the index means; the cached tree, with the cache untouched, unless inside v-for, otherwise a fresh one that is stored and marked with that index; running generated code does just this where it calls for the tree |
| Hoisting.Instance.Render | springboot/src/main/resources/static/js/vue.js:3869-3888 | each render of an instance means what its template means, whatever was rendered before, and shows exactly the contents of the template for the data it was given; static trees outside lists stay those first rendered |
| StaticInFor.SharesExactly | springboot/src/main/resources/static/js/vue.js:9882-9910 | the generated code shares one static tree between the rounds of a list exactly if some element outside v-for has both v-for and v-if and a static root in a reachable v-else block: markStaticRoots passes on isInFor to blocks without the element's own v-for |
| StaticInFor.SharingTemplate | springboot/src/main/resources/static/js/vue.js:9904-9908 | a template for which it does |
| Flatness.ChildrenFlat | springboot/src/main/resources/static/js/vue.js:10462-10487 | whichever of 0, 1 and 2 is chosen, that normalization leaves a flat array of vnodes, unless 0 is chosen and a child can be disguised by `is` |
| Flatness.FlatExactly | springboot/src/main/resources/static/js/vue.js:10462-10487 | for all data, scripts and components: flat exactly if a normalization is chosen or no reachable child or block has `is` on a platform tag |
| Flatness.DisguisedItem | springboot/src/main/resources/static/js/vue.js:10462-10487 | `<li :is="kind"/>` is the failing case: its tag is a platform tag, so 0 is chosen |
| Html.ReadSound | springboot/src/main/resources/static/js/vue.js:8939-8982 | each tag, however mismatched, keeps the events well nested, the open tags as lastTag and the stack say, and nothing misplaced |
| Html.EndedSound | springboot/src/main/resources/static/js/vue.js:8984-9036 | parseEndTag too, including the events it invents for `</br>` and `</p>` |
| Html.EndedExactly | springboot/src/main/resources/static/js/vue.js:8984-9036 | an end tag closes everything down to the closest open tag of its name, case ignored, the innermost first; without one, br becomes an element, p becomes an empty one, and any other end tag is ignored |
| Html.ImpliedSound | springboot/src/main/resources/static/js/vue.js:8943-8950 | after the implied end tags, which close at most one element each, the new tag is allowed where it starts |
| Html.ImpliedExactly | springboot/src/main/resources/static/js/vue.js:8943-8950 | which elements a start tag closes, and that it closes the innermost one each time |
| Html.DocumentSound | springboot/src/main/resources/static/js/vue.js:8785-8909 | for every token sequence the events are a balanced sequence closed at the end; with expectHTML no non-phrasing tag starts directly under p, and no may-be-left-open tag directly under itself |
| Html.FaithfulDocument | springboot/src/main/resources/static/js/vue.js:8785-9036 | a well-nested document with every tag where it may be is read exactly as written: nothing is closed early, added, dropped or changed |
| Html.StartWalk | springboot/src/main/resources/static/js/vue.js:9136-9240 | the start handler adds its event to what the tree under construction reads as |
| Html.EndWalk | springboot/src/main/resources/static/js/vue.js:9242-9253 | the end handler closes the innermost open element |
| Html.Parser.ParseEndTag | springboot/src/main/resources/static/js/vue.js:8984-9036 | closes everything down to the closest open tag of that name in lower case; the builder's stack mirrors the parser's and end never finds it empty |
| Html.Parser.HandleStartTag | springboot/src/main/resources/static/js/vue.js:8939-8982 | implied end tags first, then the element; lastTag names the top of the stack |
| Html.Parser.ParseHTML | springboot/src/main/resources/static/js/vue.js:8785-8909 | at the end both stacks are empty and the trees, read in document order, are exactly the events, with exactly the texts that the tokens of the document stand for in between: those inside an element that are not white space, decoded outside script and style, marked as expressions exactly if something is interpolated, each under the elements open there; without pre elements no element ends in a blank and no two blanks are neighbours |
| Html.SpotsSpoken | springboot/src/main/resources/static/js/vue.js:9255-9299 | for any document: apart from blanks, the texts that have to be read are those of the tokens, in order, each in the elements that are open there; Html.ItemsOf says which blanks are kept |
| Html.CharsReads | springboot/src/main/resources/static/js/vue.js:9255-9299 | one more text, read off the tree: what is added behind everything read so far, and when a blank is |
| Html.EndReads | springboot/src/main/resources/static/js/vue.js:9242-9253 | one end: the end event behind everything read so far, of which only a blank directly in front of it may go |
| Html.Builder.Start | springboot/src/main/resources/static/js/vue.js:9136-9240 | attaches unary elements, opens the others, and starts preformatted text |
| Html.Builder.End | springboot/src/main/resources/static/js/vue.js:9242-9253 | pops the innermost open element, which must exist, after removing a blank text node at its end unless text is preformatted |
| Html.Builder.Chars | springboot/src/main/resources/static/js/vue.js:9255-9299 | text outside all elements is ignored; white space becomes one blank or nothing, other text is decoded; interpolated text is an expression node; a blank is not added behind a blank; what that adds to the tree is said by Html.CharsReads |
| Html.StartAttaches | springboot/src/main/resources/static/js/vue.js:9223-9239 | from its start on an element is the last child of its parent |
| Html.EndKeeps | springboot/src/main/resources/static/js/vue.js:9242-9253 | its end changes the tree only by a blank that goes |
| Html.CharsNeat | springboot/src/main/resources/static/js/vue.js:9278-9298 | adding text keeps blanks apart |
| Html.EndNeat | springboot/src/main/resources/static/js/vue.js:9242-9253 | closing an element leaves no blank at its end |
| ModelPath.PathParser.ParseModel | springboot/src/main/resources/static/js/vue.js:6765-6803 | the index-based loops split the path where SplitOf does |
| ModelPath.PathParser.ParseBracket | springboot/src/main/resources/static/js/vue.js:6817-6833 | reads up to the bracket that closes the one just read, nested brackets and strings skipped, or to the end |
| ModelPath.PathParser.ParseString | springboot/src/main/resources/static/js/vue.js:6835-6843 | reads up to the closing quote, or to the end |
| ModelPath.RoundTripExactly | springboot/src/main/resources/static/js/vue.js:6765-6803 | for every base and key, base[key] is split into base and key again exactly if both follow the grammar of paths (characters, complete groups in brackets, complete strings in quotes), the base does not begin with white space and is not empty unless the key is; only in the base a closing bracket may be left over |
| ModelPath.LastGroup | springboot/src/main/resources/static/js/vue.js:6765-6803 | in any path of that grammar the last group at the top level is the key and what is in front of it is the object; closing brackets behind it do not matter |
| ModelPath.EnclosesExactly | springboot/src/main/resources/static/js/vue.js:6817-6833 | scanning a text inside a bracket ends inside that bracket, and outside of strings, exactly if the grammar derives the text |
| ModelPath.OutsideExactly | springboot/src/main/resources/static/js/vue.js:6785-6797 | the same outside of brackets |
| ModelPath.GroupOutside | springboot/src/main/resources/static/js/vue.js:6747-6752 | a complete path stays complete when a group is appended, so the last group is the key |
| ModelPath.NameEncloses | springboot/src/main/resources/static/js/vue.js:6747-6752 | names without quotes and brackets are complete |
| ModelPath.DotRoundTrip | springboot/src/main/resources/static/js/vue.js:6771-6783 | base.key is split at the last dot |
| ModelPath.DotExactly | springboot/src/main/resources/static/js/vue.js:6771-6783 | without brackets at the end, everything up to the last dot is the object and the rest the key; without a dot there is no key |
| ModelPath.TrimExactly | springboot/src/main/resources/static/js/vue.js:6766-6768 | trimming takes all the white space off both ends and nothing else |
| KeepAlive.Instance.Render | springboot/src/main/resources/static/js/vue.js:4963-5007 | hit, miss and pruning as Used says; a hit returns the stored instance; a component that is not included, or excluded, leaves the cache alone; which instance is destroyed |
| KeepAlive.KeyExactly | springboot/src/main/resources/static/js/vue.js:4985-4989 | a key of the user's own is taken as it is; without one, two vnodes share an entry exactly if constructor and registered name are the same |
| KeepAlive.EvictedExactly | springboot/src/main/resources/static/js/vue.js:4990-5002 | a use destroys exactly the instance of the entry that it pushes out, if the vnode on the screen has another tag, and leaves the other entries as they are |
| KeepAlive.Instance.PruneCacheEntry | springboot/src/main/resources/static/js/vue.js:4913-4925 | the entry goes; its instance is destroyed unless the current vnode has its tag |
| KeepAlive.Instance.PruneCache | springboot/src/main/resources/static/js/vue.js:4898-4911 | exactly the named entries the filter refuses go, the others keep their order; exactly the instances of those whose tag is not that of the current vnode are destroyed, each once |
| KeepAlive.Instance.Destroyed | springboot/src/main/resources/static/js/vue.js:4944-4950 | exactly the cached instances are destroyed, each once, and nothing stays cached |
| KeepAlive.UsedListed | springboot/src/main/resources/static/js/vue.js:4985-5002 | keys lists exactly the cached keys, each once, at most max of them |
| KeepAlive.LeastRecentlyUsed | springboot/src/main/resources/static/js/vue.js:4985-5002 | after any sequence of uses, keys is the last max distinct keys used, in the order of their last uses |
| KeepAlive.ByLastUseOrdered | springboot/src/main/resources/static/js/vue.js:4990-4994 | that order: an earlier key was last used earlier |
| KeepAlive.StoredAtMiss | springboot/src/main/resources/static/js/vue.js:4990-4997 | what is cached for a key is what was stored when that key was last missed |
| Activation.SwitchAgrees | springboot/src/main/resources/static/js/vue.js:2880-2912 | a direct call on any component of any tree leaves the whole tree agreeing with the switches: each flag is inactive exactly if the component is switched off or its parent is inactive, and active if its parent is active and it is not switched off |
| Activation.InactiveExactly | springboot/src/main/resources/static/js/vue.js:2873-2912 | a component is inactive exactly if it or one of its parents has been switched off |
| Activation.OffCalled | springboot/src/main/resources/static/js/vue.js:2898-2912 | deactivated is called once for each component whose flag changed, children before their parent, in order |
| Activation.OnNowCalled | springboot/src/main/resources/static/js/vue.js:2880-2896 | activated likewise; null to false counts as a change |
| Activation.SwitchTurns | springboot/src/main/resources/static/js/vue.js:2880-2912 | below no inactive parent: switching off makes everything at or below the component inactive; switching on makes active everything at or below it, whether it was inactive or never activated, that no switched-off component is in the way of, and leaves the rest |
| Activation.OpenExactly | springboot/src/main/resources/static/js/vue.js:2880-2896 | in an agreeing tree, activity reaches along a path exactly as far as no component on it is switched off |
| Activation.Components.IsInInactiveTree | springboot/src/main/resources/static/js/vue.js:2873-2878 | some component on the parent chain is inactive |
| Activation.Components.ActivateChildComponent | springboot/src/main/resources/static/js/vue.js:2880-2896 | the recursion over children does what Switched and On say |
| Activation.Components.DeactivateChildComponent | springboot/src/main/resources/static/js/vue.js:2898-2912 | the recursion over children does what Switched and Off say |
| Activation.Components.Switch | springboot/src/main/resources/static/js/vue.js:2880-2912 | below a switched-off parent only the switch is noted; otherwise flags change as SwitchTurns says and exactly the hooks of the changed components are called, once, from below; the tree keeps agreeing with the switches |
| Monitor.Alternates | java/src/main/java/com/plain/java/thread/WaitNotify.java:11-37 | in every interleaving the marks strictly alternate, the threads are never both waiting, and one can always move |
| Monitor.StepInv | java/src/main/java/com/plain/java/thread/AwaitSignal.java:16-44 | every step of either thread keeps mutual exclusion and whose turn it is; await, signalAll and unlock are the same steps |
| Monitor.KeepsPrinting | java/src/main/java/com/plain/java/thread/WaitNotify.java:11-37 | no thirteen steps in a row go by without a further mark |

## Left out

- Patch.Patcher.UpdateChildren: new vnodes are required to be fresh objects, so the cloning of a vnode that is used a second time is not modelled; `removeOnly` (used by transition-group) is false; keys that name members of `Object.prototype` are not modelled; the slots set to undefined are those of a copy of the old children.
- Patch.Patcher.PatchVnode: module hooks, component vnodes, directives, refs, the shortcut for cloned static vnodes and two vnodes sharing one children array are not modelled; element vnodes with a `text` of their own are never built by this file.
- Patch.Patcher.Patch: hydration of server-rendered markup, component placeholders and the parent given for a component root are not modelled; destruction runs no hooks; that a node is never inserted below itself is not a checked error of the document.
- Patch.Patcher.CreateElm: namespaces, scope ids and transitions are not modelled.
- Reactivity.Reactor.FlushSchedulerQueue: takes a bound on the number of turns, because the source's loop need not end; a run that has not ended by then leaves the state as it is and says so. The updated and activated hooks called after the loop are not modelled.
- Reactivity.Reactor.Update: sync watchers are not modelled.
- Reactivity.Reactor.Run: deep watchers and values that are objects (which always count as changed), and getters or callbacks that throw, are not modelled.
- Reactivity.Reactor.Get: getters only read. A getter that creates watchers while it is evaluated (the render watcher of a parent creating those of its child components) is not modelled, nor are the calls of `pushTarget` without a watcher, which do not nest with `popTarget`.
- Reactivity.Reactor.DefineReactive: nested observers, arrays and custom getters are not modelled; a cell holds an integer.
- NextTick.Loop.NextTick: callbacks that throw and the promise returned without a callback are not modelled; microtasks and macrotasks are both the one timer.
- Children.NormalizeArrayChildren: numbers and symbols among the children are strings already; keys are generated as structured values instead of strings starting with `__vlist`.
- Templates.GetNormalizationType: v-for over numbers covers natural numbers; templates have no v-once, v-pre, slots or inline templates, and no namespaces or object syntax of v-bind.
- Optimizer.MarkStatic: attributes are static or bound; the other properties that keep a node from being static (refs, directives, scoped slots) would act like a bound attribute.
- Hoisting.HoistPreserves: sharing of one static vnode object between places is visible only in StaticInFor, not in the value semantics; functional components are required not to look at static marks (Hoisting.Blind).
- Contents.RenderContent: is stated where no functional component is involved (Contents.Regular), since such a component decides itself what becomes of its children.
- Flatness.ChildrenFlat: a lone v-for child, whose list is passed as the children array without normalization, is not covered.
- Html.Parser.ParseHTML: splitting the document into tags and text, attributes and comments are not modelled; a comment outside the root element makes the builder throw when comments are kept.
- Html.Builder.Start: forbidden, v-else and slot-scope elements are attached like the others; later root elements stay in the list of trees; v-pre is not modelled.
- KeepAlive.Instance.Render: patterns are predicates on names; finding the component in the slot and marking the vnode are not modelled.
- Activation.Components.Switch: the queue of activated children, which sets flags by hand, is not modelled.
- Monitor.Alternates: spurious wakeups and interrupts are excluded.
- Transitions, attribute, class and style modules, async components, warnings and devtools: they do not touch the algorithms above.
- Slots, filters, directives, mixins and option merging of Vue: they are about combining options and passing functions on, and no algorithm above depends on how they do it.
- The demonstrations of Spring, Netty, Dubbo, RabbitMQ, Redis, Elasticsearch, ZooKeeper, Guava, resilience4j and Avro: they wrap libraries whose code is not here.
- ForkJoinDemo, DeadLock, RespnseModel and helpers such as makeMap: a sum by halves, two threads that take two locks in opposite order, one shared map, and lookup tables.
