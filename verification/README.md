# Free-space optical links of a QKD satellite network, in Dafny

This project models the deterministic core of an ns-3 simulator of quantum key
distribution over free-space optical (FSO) links between satellites and ground
stations. It covers how links are chosen and driven, and the small pieces
around them:

- **Motion planner** (`BangBangSolver`, `BangBangController`). A turntable
  axis is a double integrator with velocity and acceleration limits. The
  closed-form bang-bang solver gives the minimum time to move it between two
  (position, velocity) states. The two-axis swing time is the larger of the
  azimuth and pitch times. The controller turns a target into a queue of
  constant-acceleration segments: speeding, keeping, braking, tracking and
  staying. It plays the queue back, clamped to the limiter box, and limits
  each target's speed by the room to the position bound on its side of zero.
- **Turntable timelines and the greedy access scheduler** (`AccessTimeline`,
  `AccessCandidates`, `AccessManager`).
  - Each turntable has an odd-length, time-ordered list of
    (time, pointing) checkpoints.
  - `TryInsert` finds where a link window fits: at the end, or in a free
    gap the turntable can swing into and out of. Position 0 means
    infeasible.
  - The pair version reserves both ends or neither.
  - Candidate windows come from a link's geometry samples: a span and a
    value that sums 1/d² while both ends track.
  - They are weighted, sorted by weighted value, reserved greedily and
    turned into re-pointing commands.
- **Link session state machine** (`FsoChannel`). Each update does four things:
  - pops one geometry sample;
  - commands both turntables one sample ahead;
  - checks that both pointing errors and the distance are within bounds;
  - moves through UNCONNECTED, CONNECTING, RECONNECTING, DISCONNECTED,
    CONNECTED and CONNECTION_DONE.

  Scheduled simulator events are returned as `Effect` values rather than
  performed.
- **Link registration and sample filtering** (`AdiHelper`). These cover
  turntable registration, the face rules for satellite-to-ground and
  inter-satellite links, the bitmask/distance/count filter over samples,
  and how an inter-satellite link's samples are split between its two
  channels.
- **Serialisers** (`Bytes`, `Q3pHeader`, `Q3pTag`). These are the one-octet
  post-processing protocol header and the six packet tags, with their fixed
  layouts and round trips.
- **Registries** (`FsoChannelList`, `FsoDeviceContainer`). The first is the
  channel registry keyed by (transmitter, receiver); the second is the
  device container.

Modelling choices:

- Real arithmetic stands in for `double`.
- Simulator time is real seconds.
- Square root is an oracle `sqrt` constrained by `IsSqrt`.
- The angle between two pointings is an oracle function.
- The scheduler takes the swing time as an oracle `SwingFn`.
  `AccessTimeline.IsSwingTime` ties that oracle to the planner's `SwingTime`.
- Turntables and devices are integer handles.

Behaviour that is easy to misread:

- Checkpoint times are only non-decreasing, because the code compares with `<=`.
- The sort of candidates is unstable, so ties come in any order.
- CONNECTED is entered only when sending starts, never by an update.
- A tracking gap does not end a candidate's span; it only stops the value from accruing.

## Model

| member | source | states |
|---|---|---|
| BangBangSolver.SwingTimeAxis | model/bang-bang-controller.cc:137-203 | The one-axis minimum time, with the pure-braking guard corrected. It is never negative, and it is zero exactly when the two states have the same position and velocity. |
| BangBangSolver.GuardsPartition | model/bang-bang-controller.cc:154-202 | Every pair of states meets one of the four corrected guards. Accelerate-first and decelerate-first exclude each other. The speeding guard excludes the other three, and the braking guard excludes the first two. |
| BangBangSolver.UpProfile | model/bang-bang-controller.cc:154-172 | The accelerate-first profile coasts (trapezoid) exactly when the squared switching velocity exceeds vm². Its total time is positive. |
| BangBangSolver.DownProfile | model/bang-bang-controller.cc:173-191 | The decelerate-first profile coasts exactly when its squared switching velocity exceeds vm². Its total time is positive. |
| BangBangSolver.DownIsMirror | model/bang-bang-controller.cc:173-191 | The decelerate-first formulas are the accelerate-first formulas applied to the reflected states. |
| BangBangSolver.MirrorCases | model/bang-bang-controller.cc:145-149 | Reflecting both states negates c0 and exchanges c1 and c2 up to sign. The decelerate-first guard holds iff the accelerate-first guard holds of the reflection. |
| BangBangSolver.SaturatesIffBeyondLimit | model/bang-bang-controller.cc:156-165 | The trapezoid is chosen exactly when the switching speed vs exceeds yMax. |
| BangBangSolver.StillOnlyWhenSpeeding | model/bang-bang-controller.cc:192-196 | Equal start and end states (c0 = c1 = 0) fall under the single speeding-phase guard. |
| BangBangSolver.SpeedTime | model/bang-bang-controller.cc:192-196 | The single speeding phase takes (vf - v0)/am. This time is zero iff the two states coincide. |
| BangBangSolver.SingleBrakeTime | model/bang-bang-controller.cc:197-201 | A single braking phase takes (v0 - vf)/am seconds. |
| BangBangSolver.ReverseGuards | model/bang-bang-controller.cc:154-197 | Reversing a move (swap the ends, negate velocities) exchanges the accelerate-first and decelerate-first guards. It keeps the speeding and braking guards. |
| BangBangSolver.SwingTimeReversible | model/bang-bang-controller.cc:137-203 | Time reversal: the minimum time from p to q equals the time from q to p with both velocities negated. |
| BangBangSolver.SwingTimeAxisAsWritten | model/bang-bang-controller.cc:192-202 | The solver with its fourth guard as written (`c0 >= 0 && c2 == 0`). It reaches the assertion (None) exactly in the pure-braking case. Otherwise it agrees with the corrected solver. |
| BangBangSolver.PureBrakingRejected | model/bang-bang-controller.cc:197-202 | A concrete input: from velocity 1 at 0 to rest at 0.5, with unit acceleration. The solver as written reaches the assertion on it. |
| BangBangSolver.PureBrakingTimed | model/bang-bang-controller.cc:197-201 | The corrected solver times the same move at one second. |
| BangBangSolver.SwingTime | model/bang-bang-controller.cc:119-135 | The two-axis swing time, built on the corrected one-axis solver (see Findings). It is at least each axis's time and equals one of them. It is zero iff the two pointings are equal. |
| BangBangSolver.SwingTimeAsWritten | model/bang-bang-controller.cc:119-135 | The two-axis swing time built on the one-axis solver as written. It has no value exactly when either axis needs a pure braking move, and otherwise equals SwingTime. |
| BangBangController.Push | model/bang-bang-controller.cc:370-436 | A non-positive duration pushes nothing. Otherwise the back state is pushed with the segment's acceleration, followed by the state reached after d seconds (x + vd + ½ad², v + ad) carrying the end acceleration. The queue stays chronological. |
| BangBangController.Run | model/bang-bang-controller.cc:370-436 | Speeding, Braking and Keeping only extend the queue, and they keep it chronological. |
| BangBangController.Tracking | model/bang-bang-controller.cc:438-447 | The target is appended with its time raised to the back of the queue, so queued times never decrease. |
| BangBangController.Staying | model/bang-bang-controller.cc:449-479 | Two states are appended. The first decelerates against the current velocity. The second is reached by that motion at rest, with zero acceleration, no earlier than the first. |
| BangBangController.Settle | model/bang-bang-controller.cc:438-479 | Tracking then Staying appends three states. The target comes first, with its raised time, and the plan ends at rest. |
| BangBangController.RunUp | model/bang-bang-controller.cc:276-308 | The accelerate-first segments extend the queue, chronologically. A positive first phase adds states. |
| BangBangController.RunDown | model/bang-bang-controller.cc:309-343 | The decelerate-first segments extend the queue, chronologically. A positive first phase adds states. |
| BangBangController.Manoeuvre | model/bang-bang-controller.cc:276-343 | The plan always starts with the initial state and is chronological. When the minimum swing time fits in the time left until the target, the plan is the initial state alone. When the swing time exceeds a non-negative time left, segments are added. |
| BangBangController.MakeScheme | model/bang-bang-controller.cc:249-368 | The plan with the corrected guard and one tail. It starts with the initial state and is chronological. It holds the (time-raised) target third from the back and ends at rest. It has exactly four states when the swing fits in the time left, and more when the swing does not fit. |
| BangBangController.MakeSchemeAsWritten | model/bang-bang-controller.cc:249-368 | The plan as written keeps the same shape guarantees (WellPlanned). |
| BangBangController.SpeedingBlock | model/bang-bang-controller.cc:344-353 | The speeding-only branch plans the speeding tail when its guard holds and nothing otherwise. It falls through to the next branch. |
| BangBangController.BrakingBlockAsWritten | model/bang-bang-controller.cc:354-367 | The braking branch as written, then the final tail, still yields a well-formed plan. |
| BangBangController.SpeedingTailTwice | model/bang-bang-controller.cc:344-353 | In the speeding-only case the plan as written has three states more than the corrected plan. |
| BangBangController.RestingTargetPlannedTwice | model/bang-bang-controller.cc:344-353 | A fresh controller aimed at its own resting state gets seven states as written, against four when corrected. |
| BangBangController.BrakingNotPlanned | model/bang-bang-controller.cc:354-356 | In the pure-braking case the plan as written is the tail alone, even when the target needs a manoeuvre, which the corrected plan does plan. |
| BangBangController.Limit | model/bang-bang-controller.cc:481-514 | DoLimit keeps time and acceleration. Its result is reachable: position and velocity lie in the box, and v² ≤ 2·a·(room to the position bound on x's side of zero), with a the acceleration limit on that side. A target is changed iff it was not reachable. |
| BangBangController.KeptTargetOvershoots | model/bang-bang-controller.cc:494-512 | The cap ignores the direction of motion: with x in [-0.2, 1], a in [-1, 1], the target x = 0.1, v = -1.3 is kept, though braking before xMin needs 0.845 of room and only 0.3 remains. |
| BangBangController.IntoRange | model/bang-bang-controller.cc:484-493 | An out-of-range value goes to a bound, and an in-range value is kept. When the range straddles 0, this is ordinary clamping. |
| BangBangController.CapSpeed | model/bang-bang-controller.cc:494-512 | The velocity is capped so that v² ≤ 2·a·(room to the bound on x's side of zero), and stays in [yMin, yMax]. A velocity already within the cap is kept. |
| BangBangController.Due | model/bang-bang-controller.cc:211-219 | The number of leading queued states with t ≤ now. |
| BangBangController.DueChronological | model/bang-bang-controller.cc:211-219 | In a chronological queue the due states are exactly those with t ≤ now. |
| BangBangController.Clamp | model/bang-bang-controller.cc:227-243 | The result is in range when the range is non-empty. A value already in range is kept. Otherwise the result is one of the bounds. |
| BangBangController.Playback | model/bang-bang-controller.cc:220-244 | Constant-acceleration extrapolation to now, with position and velocity clamped into the box. A state already at now is unchanged. |
| BangBangController.PlaybackFollowsPlan | model/bang-bang-controller.cc:223-244 | Playing a planned segment back to its end time reproduces the planned end position and velocity, provided they lie in the box. |
| BangBangController.CalcState | model/bang-bang-controller.cc:205-247 | DoCalcState pops every due state and plays the last one popped back to now. The result becomes both the reported state and the plan's new start. An empty queue changes nothing. |
| BangBangController.DueIsPrefix | model/bang-bang-controller.cc:211-219 | The popping loop stops after exactly the due states. |
| BangBangController.NotifyTarget | model/bang-bang-controller.cc:96-105 | A new target is limited to a reachable one, and the corrected planner MakeScheme (see Findings) makes a well-formed plan toward it. That plan is four states long when the swing fits in the time to the target. |
| BangBangController.NotifyTargetAsWritten | model/bang-bang-controller.cc:96-105 | The same with DoMakeScheme as written: the target is limited to a reachable one and the plan is well formed. |
| AccessTimeline.FirstGap | helper/access-manager.cc:84-116 | The scan returns the odd position after the first free gap that fits the window, or 0 iff no gap from i on fits. |
| AccessTimeline.TryInsert | helper/access-manager.cc:50-119 | The result is \|ts\| iff the window starts after the last checkpoint and the swing from it fits (inclusive). It is an odd inner position iff the window starts no later and some gap fits, and then it is the first such gap. Otherwise it is 0. |
| AccessTimeline.AppendAtRest | helper/access-manager.cc:67-79 | With the solver as the swing oracle, a window after the last checkpoint at the same pointing is always appended. At another pointing it is appended only a positive swing time later. |
| AccessTimeline.Insert | helper/access-manager.cc:138-141 | Places the window's two checkpoints at the position and keeps everything else in order. |
| AccessTimeline.InsertBetween | helper/access-manager.cc:92-115 | Two checkpoints placed between neighbours that bracket them keep a timeline chronological. |
| AccessTimeline.TryInsertBrackets | helper/access-manager.cc:67-115 | The neighbours of a found position bracket the window, and the position has the parity of the length. |
| AccessTimeline.InsertKeepsWellFormed | helper/access-manager.cc:83-141 | A reserved window with start ≤ stop keeps the timeline odd-length and chronological, and keeps its first checkpoint. |
| AccessTimeline.InsertedWindowReachable | helper/access-manager.cc:76-114 | After reservation the turntable has time to swing in from the checkpoint before the window. Unless the window was appended, it also has time to swing out to the checkpoint after it. |
| AccessTimeline.Reserve | helper/access-manager.cc:121-145 | The pair reservation succeeds iff both single checks succeed. On failure no timeline changes. On success both get their window at the found positions. Other turntables are untouched. |
| AccessTimeline.Commands | helper/access-manager.cc:237-243 | One command per free gap: issued at checkpoint 2j's time (relative to now), it targets checkpoint 2j+1's time and pointing. |
| AccessTimeline.InsertedGapsFit | helper/access-manager.cc:76-114 | Two checkpoints placed at an odd position, with time to swing in and out, keep every free gap at least as long as the swing across it. |
| AccessTimeline.InsertKeepsGapsFit | helper/access-manager.cc:50-141 | A window reserved where TryInsert says keeps every free gap of the timeline at least as long as the swing from its first pointing to its last. |
| AccessTimeline.CommandsOnePerWindow | helper/access-manager.cc:239-242 | On a well-formed timeline planned at now there is one command per window, never issued in the past or after its deadline, in non-decreasing order. |
| AccessTimeline.ReservedWindowCommanded | helper/access-manager.cc:239-242 | Once a window is reserved, the turntable is commanded to reach its start. |
| AccessCandidates.RateWithinIff | helper/access-manager.cc:287-294 | The product test (r - yMax)(r - yMin) ≤ 0 is the interval test yMin ≤ r ≤ yMax. |
| AccessCandidates.FirstUsable | helper/access-manager.cc:283-301 | The forward scan finds the first sample where both ends are in limiter within range, or none iff there is no such sample. |
| AccessCandidates.LastUsable | helper/access-manager.cc:302-322 | The backward scan, which starts one before the final sample, finds the last such sample, or none iff there is none. |
| AccessCandidates.FindSpan | helper/access-manager.cc:280-322 | The span runs from one sample before the first usable sample to one after the last, the final sample excepted. It is found iff such a sample exists. |
| AccessCandidates.PulledStop | helper/access-manager.cc:333-336 | The stop never moves later. It is kept when at least ten samples remain from it. Otherwise it ends up at most len - 10. |
| AccessCandidates.Relink | helper/access-manager.cc:365-397 | A lost end resumes tracking iff the time since loss covers the two-axis swing from its last pointing. A tracking end stays tracking. |
| AccessCandidates.Lose | helper/access-manager.cc:405-435 | A tracking end that falls out of limiter is lost at the sample's time, pointing as at the previous sample. Nothing else changes. |
| AccessCandidates.Step | helper/access-manager.cc:352-436 | One accrual iteration adds 1/d² exactly when both ends follow the sample, both track after relinking, and BEYOND_DISTANCE is clear. A lost end relinks only if both ends follow the sample and the swing time has elapsed since the loss. A tracking end is lost only if it falls out of its limiter. |
| AccessCandidates.AccrueBounded | helper/access-manager.cc:352-436 | The accrued value never decreases and never exceeds the loss-free potential of the span. |
| AccessCandidates.AccrueWithoutLoss | helper/access-manager.cc:345-436 | If both ends start tracking and follow every sample, the value is exactly the potential. |
| AccessCandidates.AddAccessData | helper/access-manager.cc:257-439 | A candidate exists iff both scans found a sample and the span lasts at least a minute. Start is the span start, and stop is the pulled-back stop (at most len - 10). The value lies between 0 and the potential, wValue equals value, and the candidate is not selected. |
| AccessCandidates.AddAccessDatas | helper/access-manager.cc:246-255 | Only satisfied links contribute, each at most once, in strictly increasing link order. |
| AccessCandidates.AddAccessDatasSound | helper/access-manager.cc:246-255 | Every gathered candidate is exactly what AddAccessData makes of its own satisfied link. |
| AccessCandidates.AddAccessDatasComplete | helper/access-manager.cc:246-255 | Every satisfied link whose candidate AddAccessData keeps contributes that candidate. |
| AccessManager.Weigh | helper/access-manager.cc:170-190 | Each wValue is value times the destination's weight, and nothing else changes. A destination with no weight entry gets 0, as the default-inserted map entry does. With a zero total key gap every weighted station's wValue equals its value. |
| AccessManager.SortByValue | helper/access-manager.cc:192 | A permutation of the candidates into non-increasing weighted value (one of the orders the unstable sort may give). |
| AccessManager.Seed | helper/access-manager.cc:206-213 | A turntable met for the first time gets one checkpoint at planning time with its current pointing. Known timelines are untouched. |
| AccessManager.SeededPlanned | helper/access-manager.cc:206-213 | Seeding keeps every timeline odd-length and starting at planning time, and adds exactly the candidate's two turntables. |
| AccessManager.ReservePlanned | helper/access-manager.cc:130-145 | A pair reservation keeps every timeline odd-length and starting at planning time. |
| AccessManager.Visit | helper/access-manager.cc:202-229 | A candidate is selected iff the pair reservation on its seeded timelines succeeds, and the timelines become the reservation's. |
| AccessManager.Greedy | helper/access-manager.cc:193-230 | The pass returns the candidates in their order, with only the selected flag changed, and leaves every timeline planned (odd-length, starting at planning time). |
| AccessManager.GreedyUnfold | helper/access-manager.cc:193-230 | The greedy pass visits the first candidate, then the rest from the timelines that visit leaves. |
| AccessManager.GreedyKeys | helper/access-manager.cc:206-213 | The greedy pass gives a timeline to exactly the turntables it met. |
| AccessManager.VisitCounts | helper/access-manager.cc:136-142 | One visit adds exactly two checkpoints to each end of a selected candidate and nothing elsewhere. |
| AccessManager.GreedyCounts | helper/access-manager.cc:193-230 | Every final timeline holds its initial checkpoints plus two per selected candidate that names its turntable. |
| AccessManager.VisitOrdered | helper/access-manager.cc:136-142 | A visit keeps every timeline chronological when the candidate's window does not end before it starts. |
| AccessManager.GreedyOrdered | helper/access-manager.cc:193-230 | Under the same condition the greedy pass keeps every timeline chronological. |
| AccessManager.VisitGrows | helper/access-manager.cc:136-142 | A visit keeps every checkpoint. A selected candidate's four checkpoints are then on its turntables. |
| AccessManager.VisitExecutable | helper/access-manager.cc:202-229 | A visit keeps every free gap of every timeline long enough for its swing. |
| AccessManager.GreedyExecutable | helper/access-manager.cc:193-230 | The greedy pass leaves every free gap of every timeline at least the swing time between the pointings at its ends. |
| AccessManager.GreedyGrows | helper/access-manager.cc:193-230 | No checkpoint is ever removed during the pass. |
| AccessManager.GreedyKeepsReserved | helper/access-manager.cc:193-230 | Every selected candidate's window is still on both its turntables when the pass ends. |
| AccessManager.GreedyPass | helper/access-manager.cc:193-230 | The loop computes exactly the greedy pass from empty timelines. |
| AccessManager.SortedSchedulable | helper/access-manager.cc:186-192 | Weighing and sorting keep every candidate schedulable. |
| AccessManager.CalcScheme | helper/access-manager.cc:160-231 | Weigh, sort into non-increasing weighted value, then run the greedy pass. The result has as many candidates, in descending order, and the timelines are planned. Every free gap of every timeline is long enough for the swing across it. |
| AccessManager.AssignTurntableTask | helper/access-manager.cc:233-244 | Every command belongs to a listed turntable's timeline commands, and every such command is issued. |
| AccessManager.CommandsFor | helper/access-manager.cc:233-244 | The commands addressed to one turntable, in order: exactly the members of the list that name it. |
| AccessManager.AssignPerTurntable | helper/access-manager.cc:233-244 | With each turntable listed once, the commands addressed to a listed turntable are exactly its timeline's commands, in order, and an unlisted one gets none. |
| AccessManager.KeysAscending | helper/access-manager.cc:237 | The timeline map's keys in strictly ascending order, as an ordered map iterates them. |
| AccessManager.SelectTasks | helper/access-manager.cc:147-158 | The whole selection, from no candidates and no timelines. Every timeline holds one checkpoint plus two per selected candidate on it. Each turntable is sent exactly its timeline's commands, in order. Every free gap of every timeline is long enough for the swing across it. |
| FsoChannel.NewChannel | model/fso-channel.h:133-134 | A new link is UNCONNECTED with no devices and no samples. |
| FsoChannel.SetTxDevice | model/fso-channel.cc:121-133 | Sets the transmitter. The device count grows by one only when the slot was empty, never past two, and stays in step with the occupied slots. |
| FsoChannel.SetRxDevice | model/fso-channel.cc:135-147 | The same for the receiver. |
| FsoChannel.CountedSettersAllowed | model/fso-channel.cc:121-147 | On a channel whose count matches its slots, setting either device is always allowed. |
| FsoChannel.GetDevice | model/fso-channel.cc:182-195 | Index 0 is the transmitter and any other valid index is the receiver. |
| FsoChannel.DoSwing | model/fso-channel.cc:377-393 | Pops exactly one sample into the current targets and distance. If another remains, it becomes the predicted target and both turntables are pointed at it for its time. Otherwise there are no effects. |
| FsoChannel.React | model/fso-channel.cc:294-330 | The state decision, as iffs. The acquisition is armed iff a usable UNCONNECTED/DISCONNECTED link starts (RE)CONNECTING. It is cancelled iff an acquiring link loses track. A failure is reported iff CONNECTED drops. CONNECTED is kept only while usable, and CONNECTION_DONE is absorbing. |
| FsoChannel.DoUpdate | model/fso-channel.cc:269-357 | One update pops a sample. The last sample ends the session (CONNECTION_DONE, and Finished one step later, with no further update). Otherwise the next update is scheduled at the next sample's time. CONNECTED is never entered, and the new state is React's verdict on usability. |
| FsoChannel.UpdateDelay | model/fso-channel.cc:350-356 | Any scheduled update comes from a remaining sample and is delayed until that sample's time. |
| FsoChannel.DoAppend | model/fso-channel.cc:359-375 | New samples are queued behind the old ones, and one update then pops the front of the queue. The new samples must lie strictly after now and strictly increase. |
| FsoChannel.AppendSchedulesForward | model/fso-channel.cc:359-375 | On a fresh queue the samples stay strictly increasing, and every scheduled update lies strictly in the future. |
| FsoChannel.StartSending | model/fso-channel.cc:229-240 | The link becomes CONNECTED with the send start recorded, and the receiver success is scheduled after the propagation delay. Nothing else changes. |
| FsoChannel.StopSending | model/fso-channel.cc:242-247 | Only the send stop time is recorded. |
| FsoChannel.Attach | model/fso-channel.cc:218-227 | Both devices are set and the channel counts exactly two devices. |
| FsoChannel.AttachedDevices | model/fso-channel.cc:218-227 | After attaching to a new channel, GetDevice(0) is the transmitter and GetDevice(1) the receiver. |
| FsoChannel.Drive | model/fso-channel.cc:269-357 | Driving a session through k updates pops k samples. Using up every sample ends in CONNECTION_DONE, CONNECTED is never entered, and CONNECTION_DONE is absorbing. |
| AdiHelper.Register | helper/adi-helper.cc:68-82 | A turntable is inserted iff absent, and the result reports which. A duplicate trips an assertion (helper/adi-helper.cc:79) and otherwise returns false, leaving the registry unchanged. |
| AdiHelper.RegisterOnce | helper/adi-helper.cc:68-82 | Registering the same turntable twice trips the assertion at helper/adi-helper.cc:79 the second time, and otherwise returns false and keeps the first mapping. |
| AdiHelper.S2GRule | helper/adi-helper.cc:114-150 | A satellite-to-ground link is requested iff both devices exist and sit on the Bottom (transmitter) and Top (receiver) faces. It requires exactly IN_FOV, SRC2DST and DST2SRC, and excludes exactly DST_DAY and BEYOND_DISTANCE (so not SRC_DAY). |
| AdiHelper.RegisterS2GPair | helper/adi-helper.cc:114-150 | A rule is appended exactly when S2GRule gives one. |
| AdiHelper.GridMembers | helper/adi-helper.cc:102-112 | A rule is in the grid iff some transmitter/receiver pair yields it. |
| AdiHelper.RegisterS2G | helper/adi-helper.cc:102-112 | The nested loops append the rule of every transmitter × receiver pair, in order. |
| AdiHelper.RegisterRow | helper/adi-helper.cc:107-110 | The inner loop appends the rule of one transmitter with each receiver, in receiver order. |
| AdiHelper.FacingShape | helper/adi-helper.cc:175-190 | The ISL face pairing is symmetric and irreflexive, and involves only the four side faces. |
| AdiHelper.RegisterISLPair | helper/adi-helper.cc:163-193 | A known pair is ignored. A new pair is always recorded, and it requests a link iff its faces face each other. Other requests are kept. |
| AdiHelper.RegisterISL | helper/adi-helper.cc:153-161 | Equal-length lists are paired index by index. Existing pairs are kept in order, and pairs stay distinct. |
| AdiHelper.Satisfying | helper/adi-helper.cc:355-371 | The set of samples with every included bit set, no excluded bit set, and distance ≤ max. |
| AdiHelper.IsLinkInfoSatisfied | helper/adi-helper.cc:348-375 | True iff the number of such samples reaches minCount. |
| AdiHelper.DoFindLinkData | helper/adi-helper.cc:325-346 | The result has the same length, and entry i is the filter verdict on link i. |
| AdiHelper.SatisfiedMonotone | helper/adi-helper.cc:348-375 | Lowering minCount never turns a satisfied link unsatisfied. |
| AdiHelper.SatisfiedNeedsSamples | helper/adi-helper.cc:348-375 | A satisfied link has at least minCount samples. |
| AdiHelper.FirstSampleNotAhead | helper/adi-helper.cc:299-302 | At the time DoUpdateISL schedules CreateISLChannel, the link's first sample is not in the future, so the precondition DoAppend asserts (every sample after now) fails there. |
| AdiHelper.CreateISLChannel | helper/adi-helper.cc:226-244 | The net channel gets every sample. The FSO channel gets all but the last five, minus the one its first update pops, in order, and has both devices set. |
| Bytes.DecodeEncode | model/q3p-tag.cc:104-111 | A value below 256^n, written as n little-endian octets, decodes back to itself. |
| Bytes.EncodeDecode | model/q3p-tag.cc:113-120 | Every octet sequence is the encoding of the value it decodes to. |
| Bytes.ReadWrite | model/q3p-tag.cc:104-120 | Reading n octets off an n-octet encoding followed by anything returns the value and leaves exactly the rest. |
| Bytes.SignedRoundTrip | model/q3p-tag.cc:104-120 | The int64 times are written and read as their 64-bit two's-complement patterns, and the two reinterpretations are mutually inverse. |
| Q3pHeader.Default | model/q3p-header.cc:40-44 | A default header has type 0, which has no type name. |
| Q3pHeader.Serialize | model/q3p-header.cc:58-71 | The header is one octet, the type code. |
| Q3pHeader.Deserialize | model/q3p-header.cc:73-79 | Reading succeeds iff an octet is available, consumes exactly one, and leaves a buffer that the header writes back. |
| Q3pHeader.RoundTrip | model/q3p-header.cc:65-79 | Reading a written header returns it and leaves the rest. |
| Q3pHeader.SetType | model/q3p-header.cc:88-93 | Sets the type code. |
| Q3pHeader.SetGet | model/q3p-header.cc:88-99 | Getting returns what was set, and setting what was got changes nothing. |
| Q3pHeader.GetTypeString | model/q3p-header.cc:101-115 | A name exists exactly for codes 1..6, and every other code asserts. |
| Q3pHeader.TypeStringsDistinct | model/q3p-header.cc:104-113 | Different codes have different names. |
| Q3pTag.GetSerializedSize | model/q3p-tag.cc:97-102 | The sizes are TimeSync 20 (8+8+4), PulseLocating 52 (4+6·8) and PrivacyAmplification 16 (8+8). BasisSifting, KeySifting and ErrorCorrection are 0. |
| Q3pTag.Serialize | model/q3p-tag.cc:104-111 | Every tag writes exactly its reported size. |
| Q3pTag.ReadTimeSync | model/q3p-tag.cc:113-120 | Reads start, stop and pulses iff 20 octets remain. The buffer is what that tag writes followed by the rest. |
| Q3pTag.ReadPulseLocating | model/q3p-tag.cc:339-352 | Reads the pulse count and six statistics iff 52 octets remain, in the order they are written. |
| Q3pTag.ReadPrivacyAmplification | model/q3p-tag.cc:623-629 | Reads secure bits then total bytes iff 16 octets remain. |
| Q3pTag.Deserialize | model/q3p-tag.cc:415-419 | Reading a tag of a known class succeeds iff its size is available, and gives a tag of that class whose encoding is what was read. The zero-size classes read nothing. |
| Q3pTag.RoundTrip | model/q3p-tag.cc:402-419 | For every class, reading a written tag returns it and leaves the rest. |
| Q3pTag.TimeSyncRoundTrip | model/q3p-tag.cc:104-120 | TimeSync reads back in the order it writes. |
| Q3pTag.PulseLocatingRoundTrip | model/q3p-tag.cc:324-352 | PulseLocating reads back in the order it writes. |
| Q3pTag.PrivacyAmplificationRoundTrip | model/q3p-tag.cc:615-629 | PrivacyAmplification reads back in the order it writes. |
| Q3pTag.PulseLocatingLayout | model/q3p-tag.cc:324-337 | The layout is the count (U32), then Ms, Mw, Mv, EsMs, EwMw and EvMv (U64 each), at fixed offsets. |
| Q3pTag.TimeSyncLayout | model/q3p-tag.cc:104-111 | The layout is start (U64), stop (U64), then pulses (U32). |
| Q3pTag.SetStartTime | model/q3p-tag.cc:33-38 | Stores the start time as whole microseconds, truncated toward zero. The other fields are kept. |
| Q3pTag.SetStopTime | model/q3p-tag.cc:39-44 | The same for the stop time. |
| Q3pTag.TimeTruncation | model/q3p-tag.cc:33-62 | Getting a set time returns it up to one microsecond, truncated toward zero. Setting what was got changes nothing. |
| Q3pTag.SetPulses | model/q3p-tag.cc:45-50 | Sets the pulse count and keeps the times. |
| Q3pTag.SetSecureBits | model/q3p-tag.cc:564-569 | Sets the secure bit count and keeps the byte count. |
| Q3pTag.SetTotalBytes | model/q3p-tag.cc:577-582 | Sets the byte count and keeps the secure bit count. |
| Q3pTag.TypeNamesDistinct | model/q3p-tag.cc:384-393 | The six tag classes register six distinct type names. |
| Q3pTag.ConstructAsWritten | model/q3p-tag.cc:444-453 | The registered constructors as written build a tag of the named class, except for KeySifting. |
| Q3pTag.KeySiftingConstructsBasisSifting | model/q3p-tag.cc:450 | Constructing from the KeySifting type id yields a tag whose class name is BasisSifting's. |
| Q3pTag.Construct | model/q3p-tag.cc:444-453 | The corrected registry builds a tag of the named class for every name, and that tag reads back under its own class. |
| FsoChannelList.Add | model/fso-channel-list.cc:30-47 | Both devices must be set. A new pair stores the channel and bumps the count. A present pair asserts and is left alone. The returned count is the registry's count and stays equal to the number of pairs. |
| FsoChannelList.Get | model/fso-channel-list.cc:49-63 | Returns the stored channel iff the pair is registered, without inserting. |
| FsoChannelList.AddThenGet | model/fso-channel-list.cc:30-63 | After adding a new pair, Get returns its channel, and every other pair reads as before. |
| FsoChannelList.AddTwice | model/fso-channel-list.cc:42-45 | A second Add of the same pair changes neither the count nor the stored channel. |
| FsoDeviceContainer.Add | model/fso-device-container.cc:65-69 | Appends at the end: GetN grows by one, the new device is last, and earlier positions are unchanged. |
| FsoDeviceContainer.AddAll | model/fso-device-container.cc:57-64 | Appends the other container's devices in their order. |
| FsoDeviceContainer.AddedInOrder | model/fso-device-container.cc:45-55 | After adding devices one by one, GetN is their number and Get(i) is the i-th added. |

## Left out

- Orbit, visibility and geometry computation, and the trigonometry of pointings: geometry samples are inputs, and the angle between two pointings is an oracle function.
- Floating-point numerics: square root is an oracle, `double` is real, and rounding is not modelled.
- The fairness weight `exp(gap / totalGap)`: per-station weights are an input map.
- Simulator plumbing: `Simulator::Schedule` and `Cancel`, callbacks and trace sources. The simulation stop time is not modelled, so FsoChannel.DoUpdate does not state the assertion that an update runs before it (model/fso-channel.cc:281).
  - In the link session, scheduled events are returned as `Effect` values.
  - In the controller, the get/set accessors become parameters and results.
  - `Now()` is a parameter.
  - `ToTime` is taken as the identity on seconds.
- The acquisition, success and finish handlers of the link session, and the loss and delay models: the propagation delay is a function parameter of `StartSending`.
- `CreateS2GChannel`, daily re-planning (`DoUpdateS2G`, `DoUpdateISL`), the satellite and station overloads of `Register`, and the link-helper bookkeeping behind `AddLink`: these wrap code this model does not see.
- The post-processing caches and protocol, the secure-key calculations, the optics models, and the device, net, stack and routing helpers.
- Logging, `ToString`, `Print` and `GetInstanceTypeId`.
- The getters and setters of the pulse-locating tag: they are field selection and update on the `PulseLocating` datatype.
- `TagBuffer`'s byte order is not fixed here: integers are little-endian, and doubles are opaque 8-octet patterns.
- C++ fields the constructors leave uninitialised are taken as 0.
- 32-bit counters (`FsoChannelList`'s count, container sizes) do not wrap.
- AccessManager.SortByValue: models one admissible order of the unstable `std::sort`, namely an insertion sort into non-increasing weighted value. Any order with that property is one the source may produce.
- AccessManager.KeysAscending: the source's map is keyed by turntable pointers, so its iteration order is pointer order. Here turntables are integer handles taken in ascending order.
- AccessCandidates.AddAccessData: requires a non-zero distance for every sample in the accrual range whose gain may be added. In IEEE arithmetic 1/(0·0) is +inf and the value would be infinite; Dafny's reals have no infinity, and two devices cannot be at zero distance. It also requires the pulled-back stop to lie inside the run and not before the start minus one: otherwise the source's accrual loop reads outside the sample vector, which is undefined behaviour. The assertions that the link's source is on a satellite and its destination on a station (helper/access-manager.cc:267-268) are not modelled: node kinds are not part of this model, so it accepts any link.
- AccessManager.Greedy: no lemma states that a higher-valued candidate is never rejected in favour of a lower-valued mutually feasible one; the pass visits candidates in sorted order and selects each iff its reservation succeeds.
- BangBangController.NotifyTarget: plans with the corrected MakeScheme, not DoMakeScheme as written; NotifyTargetAsWritten plans as written, and the difference is the Findings row on lines 344-353 (7 queued states instead of 4).
- BangBangSolver.SwingTime: uses the corrected one-axis solver, so it has a value where the source's assertion fails; SwingTimeAsWritten has no value exactly there.
- AdiHelper.Register: a duplicate turntable trips an assertion (helper/adi-helper.cc:79) in a debug build; the model has no notion of a failed assertion here and returns the release build's `false` with the registry unchanged.
- AdiHelper.CreateISLChannel: requires every queued sample to lie after now, as DoAppend asserts (model/fso-channel.cc:366). Its only caller, DoUpdateISL (helper/adi-helper.cc:299-302), runs it at the first sample's time, so with `ToTime` as the identity the requirement is never met there (FirstSampleNotAhead) and a debug build would stop at that assertion. The DateTime-to-Time conversion is not part of this model, so whether it shifts the time is unverified; the call from DoUpdateISL is not modelled.
- BangBangController.Limit: caps the speed by the room on x's side of zero, as the source does, so a target moving towards the other bound may be kept although it cannot brake in time (KeptTargetOvershoots). No corrected variant is modelled.
- AccessTimeline.Reserve: requires the two turntables to be distinct. The source's iterator into the second timeline would not survive an insertion into the first.

## Findings

| source | as written | input that shows it | evidently intended | confidence | as-written member | corrected member |
|---|---|---|---|---|---|---|
| model/bang-bang-controller.cc:197-202 | The fourth guard of `SwingTime` is `c0 >= 0 && c2 == 0`. The first three guards already cover every `c0 >= 0`, so a pure braking move (`c0 < 0 && c2 == 0`) reaches `NS_ASSERT (false)` with no return value. | am = 1, vm = 2, from (x, v) = (0, 1) to (0.5, 0) | `c0 < 0 && c2 == 0`, which gives a time of (v0 - vf)/am = 1 s | high (not executed) | BangBangSolver.SwingTimeAxisAsWritten and BangBangSolver.PureBrakingRejected | BangBangSolver.SwingTimeAxis and BangBangSolver.PureBrakingTimed |
| model/bang-bang-controller.cc:344-353 | The speeding-only branch of `DoMakeScheme` has no `return`, so `Tracking` and `Staying` run again at the end. The same dead braking guard recurs at line 354. | A controller at rest at 0 whose target is its own resting state: 7 queued states | One tail per plan: 4 queued states | high (not executed) | BangBangController.MakeSchemeAsWritten and BangBangController.RestingTargetPlannedTwice | BangBangController.MakeScheme |
| model/q3p-tag.cc:444-453 | `Q3pTagKeySifting::GetTypeId` registers `AddConstructor<Q3pTagBasisSifting>`. | Creating a tag from the type id `ns3::Q3pTagKeySifting` | `AddConstructor<Q3pTagKeySifting>` | high (not executed) | Q3pTag.ConstructAsWritten and Q3pTag.KeySiftingConstructsBasisSifting | Q3pTag.Construct |
