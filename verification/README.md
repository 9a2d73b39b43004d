# Lab-protocol timer backend, modelled in Dafny

This project models the core of the backend of a lab-protocol timer. An
**experiment** holds **steps**. Each step has a type (fixed duration, task,
fixed start, automated task), a duration, dependencies on other steps and a
status (pending, ready, running, paused, completed, skipped, error). The
**scheduler** merges the steps of every experiment into one table keyed by
step id. It projects scheduled start and end times onto the pending steps
through a work queue. It promotes a pending step to ready once all of its
dependencies are completed. It drives the start, pause and complete
transitions and lists the steps due in a time window. The **notification
service** stores notifications and indexes them by user. It runs a handler
for each notification type that adds action buttons or raises the priority,
and it serialises notifications to and from dictionaries. Factories build
the notifications for common scheduler events.

Files:

- `models.dfy` (module `Models`): the step state as a value (`StepState`);
  the transitions as pure functions (`StartStep`, `PauseStep`,
  `CompleteStep`); the `Step` and `Experiment` classes whose methods update
  their fields in place and are proved against those functions; and an
  accounting of elapsed time over whole runs of a step.
- `scheduler.dfy` (module `Scheduling`): the `Scheduler` class. Each of its
  loops is a static method over the table, proved against a specification
  function (`Resolve`, `Scheduled`, `PromoteReady`, `UpcomingIn`), and the
  lemmas about those functions.
- `notifications.dfy` (module `Notifications`): notifications and actions as
  datatypes; a small `Json` datatype for the dictionary form; the handlers;
  the `NotificationService` class; the factories.
- `options.dfy`, `sequences.dfy`, `sorting.dfy`: `Option`, sequence lemmas,
  and a stable insertion sort by an integer key (Python's `sorted` and
  `list.sort` are stable).

Conventions:

- Times are whole seconds (`int`) and durations are `nat` seconds.
  `datetime.max` is the constant `MaxTime`, 9999-12-31 23:59:59 in seconds
  since 1970.
- Every `datetime.now()` and every `uuid.uuid4()` becomes a parameter.
  Every optional time argument (`start_time or datetime.now()`) is passed
  already resolved.
- In some places Python raises an exception. One case is the `TypeError`
  of `now - None`, when a running step has no actual start. Another is the
  `KeyError` or `ValueError` of `from_dict`. Such a call is modelled as a
  value: `StepResult.Raised` holds the state that the exception leaves
  behind, and `None` stands for a failed `from_dict`.

Notable behaviours of the code:

- A step becomes READY only when every dependency is COMPLETED. A SKIPPED
  dependency blocks it (`Scheduling.SkippedBlocksReady`).
- Resuming a paused step overwrites `actual_start_time`. Pausing adds the
  time since that start to `elapsed_time`, so the elapsed time is exactly
  the sum of the running intervals (`Models.TaskRunAccounting`).
- Pausing a step that is not a TASK, and every other refused transition,
  only prints a warning and changes nothing. There is no error result.
- The scheduler's projection runs only on request
  (`calculate_initial_schedule`). Pausing does not re-evaluate readiness.

## Model

| member | source | states |
|---|---|---|
| Models.NewStep | backend/models.py:25-63 | a new step is PENDING with zero elapsed time and no actual times; its scheduled end is start + duration exactly when a start is given; a TASK without a resource needs `user_attention` |
| Models.Step.constructor | backend/models.py:25-63 | the object's fields are those of `NewStep` and its projection is consistent |
| Models.StartStep | backend/models.py:65-75 | only READY or PAUSED steps start: they become RUNNING with the actual start (re)set to the given time; any other status leaves the step unchanged |
| Models.Step.Start | backend/models.py:65-75 | the object's new state is `StartStep` of its old state |
| Models.PauseStep | backend/models.py:77-90 | a non-TASK or non-RUNNING step is unchanged; a running TASK becomes PAUSED with `now - actual start` added to elapsed; it raises exactly when a running TASK has no actual start, and then changes nothing |
| Models.Step.Pause | backend/models.py:77-90 | the object's new state and the raised flag are those of `PauseStep` |
| Models.CompleteStep | backend/models.py:93-105 | only RUNNING or PAUSED steps complete; the actual end is set; a running step adds `end - actual start` to elapsed, a paused one adds nothing; it raises exactly when a running step has no actual start, after the end is set |
| Models.Step.Complete | backend/models.py:93-105 | the object's new state and the raised flag are those of `CompleteStep` |
| Models.Step.UpdateStatus | backend/models.py:108-111 | sets any status, with no guard, and changes nothing else |
| Models.ExpectedEndCases | backend/models.py:113-130 | `ExpectedEnd` (`get_expected_end_time`) is start + duration for a started RUNNING/PAUSED step, the actual end for a started COMPLETED step that has one, else scheduled start + duration (also for a COMPLETED step without an actual end); it is None exactly when none of these applies |
| Models.TransitionsKeepSchedule | backend/models.py:65-105 | no transition touches the scheduled start or end |
| Models.ElapsedMonotoneStep | backend/models.py:65-105 | one transition at a time not before the current start never decreases the elapsed time |
| Models.ElapsedNeverDecreases | backend/models.py:65-105 | along any run with non-decreasing timestamps, the elapsed time never decreases |
| Models.TaskRunAccounting | backend/models.py:65-105 | a TASK run of start/pause segments ending in a completion adds exactly the sum of the running intervals to elapsed, and leaves the step COMPLETED with the last segment's start and end |
| Models.Lookup | backend/models.py:153-154 | `dict.get`: Some exactly when the id is a key, with that entry |
| Models.Experiment.constructor | backend/models.py:139-143 | a new experiment has the given id, name and description, and no steps |
| Models.Experiment.AddStep | backend/models.py:146-151 | a step whose id is present is ignored; otherwise it is added under its id, at the end of the insertion order |
| Models.Experiment.GetStep | backend/models.py:153-154 | the step stored under the id, or None when there is none |
| Scheduling.ResolveFromIsMax | backend/scheduler.py:36-59 | the dependency loop yields a time exactly when every dependency is known and has an end; the time is then the latest of them and the running start |
| Scheduling.ResolveIsMax | backend/scheduler.py:36-59 | `Resolve` (`_resolve_dependencies`) gives a time iff there is a dependency and every dependency is known with an end (actual, else scheduled); it is then the maximum of those ends and one of them; an unknown dependency gives None |
| Scheduling.ResolveFromStable | backend/scheduler.py:36-59 | a resolved time stays the same while known ends do not move |
| Scheduling.Scheduler.ResolveDependencies | backend/scheduler.py:36-59 | the loop computes `Resolve` of the step's dependencies |
| Scheduling.Scheduled | backend/scheduler.py:85-102 | a scheduled step keeps a scheduled start it already had, gets one otherwise, and ends `duration` after it |
| Scheduling.ScheduledByFacts | backend/scheduler.py:85-102 | a step the loop schedules keeps its status, id, dependencies and actual times; its start is the preset start, else the base time without dependencies, else their resolved end |
| Scheduling.ScheduledStable | backend/scheduler.py:85-102 | a step scheduled once stays what it was while known ends do not move |
| Scheduling.ScheduledCases | backend/scheduler.py:83-102 | the loop's case split on "no dependencies" / "resolved" computes `Scheduled` |
| Scheduling.ExtendProcessed | backend/scheduler.py:99-104 | scheduling one more untouched PENDING step keeps every step scheduled before as the loop made it, and every known end |
| Scheduling.ScheduleOneKeepsEnds | backend/scheduler.py:99-104 | scheduling a step never moves an end that was already known |
| Scheduling.ReplaceKeepsTable | backend/scheduler.py:99-104 | replacing a step by a consistent one with the same id keeps the table valid |
| Scheduling.Scheduler.ScheduleQueue | backend/scheduler.py:67-113 | the work-queue loop stops within 2·n iterations; every step it changed was PENDING and was scheduled as `Scheduled` describes; every step PENDING and schedulable from the start is scheduled |
| Scheduling.Scheduler.CalculateInitialSchedule | backend/scheduler.py:61-115 | the new schedule is `PromoteReady` of the projection `ScheduleQueue` makes, and the projection has the guarantees of `ScheduleQueue` |
| Scheduling.Scheduler.CheckDependencies | backend/scheduler.py:122-133 | the inner loop reports "met" iff every dependency exists and is COMPLETED, and then the latest actual end among them |
| Scheduling.CompletionDecides | backend/scheduler.py:122-133 | readiness and the latest end depend only on which steps are COMPLETED and on their actual ends |
| Scheduling.Scheduler.PromoteAll | backend/scheduler.py:118-141 | the loop over the table computes `PromoteReady` |
| Scheduling.Scheduler.UpdateReadyStatus | backend/scheduler.py:118-141 | the schedule becomes `PromoteReady` of the old one; experiments and order are unchanged |
| Scheduling.ReadyIff | backend/scheduler.py:118-141 | after `PromoteReady` (`update_ready_status`) a step is READY iff it was READY, or it was PENDING with every dependency present and COMPLETED; a step that was not PENDING is unchanged; the only status change is to READY |
| Scheduling.SkippedBlocksReady | backend/scheduler.py:125-129 | a SKIPPED or missing dependency keeps a PENDING step unchanged |
| Scheduling.PromoteKeepsCompletion | backend/scheduler.py:118-141 | promotion changes no COMPLETED status and no actual end |
| Scheduling.PromoteIdempotent | backend/scheduler.py:118-141 | promoting twice is promoting once |
| Scheduling.PromoteKeepsTable | backend/scheduler.py:118-141 | promotion keeps the table valid |
| Scheduling.CompletingSoleDependency | backend/scheduler.py:186-193 | completing the only dependency of a PENDING step and then promoting makes that step READY |
| Scheduling.Scheduler.constructor | backend/scheduler.py:11-13 | a new scheduler has no experiments and an empty schedule |
| Scheduling.Scheduler.NewIdsMembers | backend/scheduler.py:23-28 | the ids appended to the order are exactly the experiment's step ids not yet scheduled |
| Scheduling.Scheduler.NewIdsSnoc | backend/scheduler.py:23-28 | one more step id extends the appended ids by that id exactly when it is new |
| Scheduling.AddOneKeepsTable | backend/scheduler.py:27-28 | adding a consistent step under a new id keeps the table valid |
| Scheduling.Scheduler.MergeNext | backend/scheduler.py:23-28 | one turn of the merge loop adds the step iff its id is not yet scheduled and keeps the loop invariant |
| Scheduling.Scheduler.MergeSteps | backend/scheduler.py:23-28 | the merged table holds the old entries unchanged and the experiment's new steps, and the order gains the new ids in the experiment's order |
| Scheduling.Scheduler.AddExperiment | backend/scheduler.py:17-29 | a known experiment id changes nothing; otherwise the experiment is recorded and its steps merged, never overwriting a scheduled step |
| Scheduling.Scheduler.GetStep | backend/scheduler.py:32-34 | the scheduled step under the id, or None when there is none |
| Scheduling.Scheduler.CheckForConflicts | backend/scheduler.py:145-159 | no conflicts are ever reported |
| Scheduling.Scheduler.HandleStepStart | backend/scheduler.py:161-173 | an unknown id changes nothing; otherwise the step is started and readiness re-evaluated |
| Scheduling.Scheduler.HandleStepPause | backend/scheduler.py:175-184 | an unknown id changes nothing; otherwise the step is paused, with no re-evaluation of readiness, and the raised flag is the pause's |
| Scheduling.Scheduler.HandleStepComplete | backend/scheduler.py:186-199 | an unknown id changes nothing; otherwise the step is completed and readiness re-evaluated, unless the completion raised |
| Scheduling.UpcomingIn | backend/scheduler.py:201-214 | the selected steps are exactly the table's steps in window: READY/PENDING by start key, RUNNING by expected end |
| Scheduling.Scheduler.SelectUpcoming | backend/scheduler.py:201-216 | the result is a permutation of the steps in window, sorted by start key, and holds every step in window |
| Scheduling.Scheduler.GetUpcomingSteps | backend/scheduler.py:201-216 | as `SelectUpcoming`, over the whole schedule in insertion order |
| Sorting.SortByKey | backend/scheduler.py:216 | the sort is a permutation of its input and is sorted by the key |
| Notifications.TypeValueRoundTrip | backend/notifications.py:8-17 | each notification type's value string parses back to that type, and only its own string does |
| Notifications.PriorityValueRoundTrip | backend/notifications.py:20-24 | the same, for priorities |
| Notifications.DeliveryValueRoundTrip | backend/notifications.py:27-31 | the same, for delivery methods |
| Notifications.ActionTypeValueRoundTrip | backend/notifications.py:34-39 | the same, for action types |
| Notifications.ActionToDict | backend/notifications.py:53-59 | an action's dictionary has exactly the keys id, type, label and data, with the type's value string |
| Notifications.ActionFromDict | backend/notifications.py:128-134 | reading an action needs the id, type and label keys |
| Notifications.ActionRoundTrip | backend/notifications.py:128-134 | reading back an action's dictionary gives the action |
| Notifications.ActionsRoundTrip | backend/notifications.py:128-135 | reading back the list of action dictionaries gives the actions, in order |
| Notifications.NewNotification | backend/notifications.py:63-87 | a new notification has the given fields, is unread and not dismissed, and has a non-empty delivery list, which is `[IN_APP]` when none was given |
| Notifications.ToDict | backend/notifications.py:89-105 | the dictionary form is an object |
| Notifications.ToDictEntries | backend/notifications.py:89-105 | the dictionary holds every field under its key, with enums as value strings |
| Notifications.Get | backend/notifications.py:114-118 | `dict.get`: the entry, or null for a missing key |
| Notifications.RequiredStr | backend/notifications.py:110-113 | a required entry reads as a string only when it is present and is a string |
| Notifications.OptionalStr | backend/notifications.py:115-116 | a missing or null entry reads as None |
| Notifications.ObjectOrEmpty | backend/notifications.py:117 | a missing or falsy metadata entry reads as the empty dictionary |
| Notifications.FlagOr | backend/notifications.py:124-125 | a missing flag reads as the default |
| Notifications.TargetsFromDict | backend/notifications.py:114 | missing or falsy targets read as the empty list |
| Notifications.DeliveriesFromDict | backend/notifications.py:118 | missing delivery methods read as `[IN_APP]`; the result is never empty |
| Notifications.ActionsFromDict | backend/notifications.py:128 | missing actions read as the empty list |
| Notifications.FromDict | backend/notifications.py:107-137 | parsing succeeds only on an object holding the keys title, message, type, priority, id and created_at; the parsed id, title, message and creation time are those entries, and the type and priority are the enums whose value strings they hold; the delivery list is never empty |
| Notifications.TargetsRoundTrip | backend/notifications.py:114 | reading back the written target list gives it |
| Notifications.DeliveriesRoundTrip | backend/notifications.py:118 | reading back the written delivery list gives it |
| Notifications.RequiredEntries | backend/notifications.py:109-113 | the required entries `to_dict` writes read back as the notification's fields |
| Notifications.OptionalEntries | backend/notifications.py:114-135 | the optional entries `to_dict` writes read back as the notification's fields, an empty delivery list as `[IN_APP]` |
| Notifications.FromEntries | backend/notifications.py:107-137 | any dictionary holding `to_dict`'s entries parses to the notification, up to the empty-delivery default |
| Notifications.DictRoundTrip | backend/notifications.py:89-137 | `from_dict(to_dict(n))` is n when its delivery list is non-empty, and n with `[IN_APP]` otherwise |
| Notifications.NewNotificationRoundTrip | backend/notifications.py:63-137 | every notification the constructor builds survives the dictionary round trip exactly |
| Notifications.StepButton | backend/notifications.py:233-239 | a step button is a BUTTON whose data is exactly the step id |
| Notifications.WithStepButton | backend/notifications.py:229-269 | with a step id set, exactly one button carrying that step id is appended; otherwise nothing changes |
| Notifications.HandleStepReady | backend/notifications.py:229-240 | with a step id set, exactly a "start_step" button for it is appended; otherwise nothing changes |
| Notifications.HandleStepPaused | backend/notifications.py:247-257 | with a step id set, exactly a "resume_step" button is appended; otherwise nothing changes |
| Notifications.HandleStepTimeout | backend/notifications.py:259-269 | with a step id set, exactly a "complete_step" button is appended; otherwise nothing changes |
| Notifications.HandleResourceConflict | backend/notifications.py:271-288 | with both the step id and a truthy conflicting step id, exactly the two pause buttons are appended, in order; otherwise nothing changes |
| Notifications.HandleUserAttention | backend/notifications.py:290-300 | with a step id set, exactly a LINK to `/run/<experiment>?focus=<step>` is appended, with a missing experiment printed as `None`; otherwise nothing changes |
| Notifications.HandleError | backend/notifications.py:302-305 | an error notification's priority becomes HIGH and nothing else changes |
| Notifications.Handle | backend/notifications.py:147-170 | the handler table only appends its actions (their number by type and fields) and raises the priority of ERROR notifications to HIGH; nothing else changes |
| Notifications.Ids | backend/notifications.py:185 | a user's id list, or the empty list for an unknown user |
| Notifications.AddToUsersAt | backend/notifications.py:162-166 | under `AddToUsers` (the loop of `create_notification`), each target's list gains one copy of the id per time the target is named, missing lists are created, and no other list changes |
| Notifications.RemoveFirst | backend/notifications.py:220 | `list.remove` drops one occurrence when there is one (the length falls by one and the multiset loses one copy) and changes nothing otherwise |
| Notifications.RemoveFirstDropsFirst | backend/notifications.py:220 | the occurrence `list.remove` drops is the first one, so the rest of the list keeps its order |
| Notifications.RemoveFromUsersAt | backend/notifications.py:217-220 | under `RemoveFromUsers` (the loop of `delete_notification`), no list is created or dropped; each named list loses the first occurrence of the id once per naming |
| Notifications.RemoveFirstPastPrefix | backend/notifications.py:220 | removing the id from a list that holds it only in its tail shortens the tail by one |
| Notifications.RemoveRepeats | backend/notifications.py:217-220 | removing k copies appended to a list without the id gives the list back |
| Notifications.WithListsFor | backend/notifications.py:164-165 | the index gains an empty list for each target without one and keeps every other list |
| Notifications.IndexRoundTrip | backend/notifications.py:158-220 | adding and then removing a new id restores every list that existed and leaves an empty list for each target that had none |
| Notifications.Feed | backend/notifications.py:185-192 | the feed holds exactly the stored notifications the user's ids lead to, unread ones only when asked |
| Notifications.CreatedIsListed | backend/notifications.py:158-192 | a created notification is in the feed of each of its targets |
| Notifications.MarkRead | backend/notifications.py:198-203 | only the named notification's read flag is set |
| Notifications.MarkDismissed | backend/notifications.py:205-210 | only the named notification's dismissed flag is set |
| Notifications.MarkIdempotent | backend/notifications.py:198-210 | marking twice is marking once |
| Notifications.NotificationService.constructor | backend/notifications.py:141-143 | a new service stores nothing and indexes nothing |
| Notifications.NotificationService.CreateNotification | backend/notifications.py:158-181 | the handled notification is stored under its id, the id is appended to each target's list, and the id is returned |
| Notifications.NotificationService.AddAll | backend/notifications.py:163-166 | the loop over the targets computes `AddToUsers` |
| Notifications.NotificationService.SelectFeed | backend/notifications.py:185-196 | the result is a permutation of the feed, newest first |
| Notifications.NotificationService.GetUserNotifications | backend/notifications.py:183-196 | the user's notifications, filtered as asked, newest first, and only stored ones |
| Notifications.NotificationService.MarkAsRead | backend/notifications.py:198-203 | returns whether the id is stored; only its read flag changes |
| Notifications.NotificationService.MarkAsDismissed | backend/notifications.py:205-210 | returns whether the id is stored; only its dismissed flag changes |
| Notifications.NotificationService.DeleteNotification | backend/notifications.py:212-225 | an unknown id changes nothing and returns false; otherwise the entry is removed and the id leaves each target's list once per naming |
| Notifications.NotificationService.RemoveAll | backend/notifications.py:218-220 | the loop over the targets computes `RemoveFromUsers` |
| Notifications.CreateDeleteRoundTrip | backend/notifications.py:158-225 | creating a notification under a fresh id and deleting it gives back the store, and the index up to empty lists for new targets |
| Notifications.ReadyMetadata | backend/notifications.py:321-324 | step-ready metadata has exactly two keys: the scheduled start (null when unset) and the step type's value string |
| Notifications.StepReadyNotification | backend/notifications.py:311-325 | a MEDIUM step-ready notification for the step and experiment, with that metadata and no actions |
| Notifications.StepCompletedNotification | backend/notifications.py:327-337 | a LOW step-completed notification for the step and experiment |
| Notifications.ResourceConflictNotification | backend/notifications.py:339-354 | a HIGH resource-conflict notification for the first step, naming the second as the conflicting one |
| Notifications.UserAttentionNotification | backend/notifications.py:356-366 | a HIGH attention notification for the step and experiment |
| Notifications.StepTimeoutNotification | backend/notifications.py:368-378 | a MEDIUM timeout notification for the step and experiment |
| Notifications.StepReadyActions | backend/notifications.py:229-240 | a stored step-ready notification carries exactly one start button for its step when the step id is non-empty |
| Notifications.StepTimeoutActions | backend/notifications.py:259-269 | a stored timeout notification offers "Mark as Complete" for its step |
| Notifications.ResourceConflictActions | backend/notifications.py:271-288 | a stored conflict notification offers both pause buttons exactly when both step ids are non-empty |
| Notifications.UserAttentionActions | backend/notifications.py:290-300 | a stored attention notification links to its step in its experiment's run view |

## Left out

- Object identity: the scheduler and each experiment share the same `Step` objects, and the handlers mutate the stored `Notification`. The model keeps step tables and notifications as values, so it does not show a change made through one holder being visible through another.
- Console output (`print`) and the WebSocket `emit` in `create_notification`: these are I/O and change no state.
- Clock and identifiers: `datetime.now()` and `uuid.uuid4()` are parameters. The default `start_time or now` of each handler is resolved by the caller.
- ISO-8601 formatting: `created_at` and the scheduled start in step-ready metadata are kept as integers, not `isoformat()` strings.
- Step fields the core never reads: `notes`, `metadata` and `latest_allowed_start_time`.
- The `User` class, password hashing, the authentication module and the web application are not part of this model.
- The default window of one hour in `get_upcoming_steps`: the window is always passed explicitly.
- `create_notification_factories`: its dictionary of closures, and its unused `scheduler` argument, are replaced by the five factory functions.
- Experiment owner: `Experiment` has no `owner` attribute, so the fallback `[experiment.owner] if hasattr(...)` always gives `[]`. The factories take the targets as given.
- The `ScheduleConflictError` class is never raised.
- Scheduling.Scheduler.ScheduleQueue: bounds the iteration count by 2·n instead of stating its exact value. A PENDING step whose dependencies get an end only while the loop runs may or may not be scheduled, depending on queue order and the iteration limit. The contract says only that, if it changes, it is scheduled as `Scheduled` describes. The bound can stop the loop on acyclic input: four steps listed in reverse dependency order (each depending on the next, the last with none) use up the eight turns with the first two still unscheduled.
- Scheduling.Scheduler.CalculateInitialSchedule: the projection and the iteration count are ghost results. The method states what they satisfy, not their exact values.
- Sorting.SortByKey: stability (equal keys keep their input order) is implemented but not stated.
- Notifications.ToDict: its contract says only that the result is an object. The entries are stated by `ToDictEntries`, and their reading back by `DictRoundTrip`.
- Notifications.FromDict: an entry of the wrong JSON type (a number as the title, a string as `is_read`) is rejected with None. Python would sometimes store such a value as it is. `datetime.fromisoformat` is modelled as an integer entry.
- Notifications.ActionFromDict: a truthy but non-dictionary `data` entry is rejected. Python would store it as it is.
