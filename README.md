# XIVSync core logic in Dafny

XIVSync is a character-synchronisation plugin for a game client. Most of it
is user-interface drawing and plugin glue. This project models the small
pieces with real rules and proves what they promise:

- **Transfer slots** (`FileTransfers`). Parallel downloads and uploads are
  bounded by resizable semaphores. The model covers the set of download
  requests the server marked ready. It also covers the per-slot bandwidth
  limit, with its 32-bit unit conversion written out.
- **Read governor** (`ReadGovernor`). A one-minute sliding window of file
  reads, with a running byte total, classified as `Off`, `Slow` or
  `SustainedSweep`.
- **UI logging provider** (`UILogging`). One bounded FIFO buffer of log
  entries, shared by one logger per category.
- **Log and event viewers** (`LogCategories`, `SettingsUi`, `EventViewer`).
  Keyword-priority categories, level and severity gates, case-insensitive
  search, category-name truncation, newest-first ordering. Also the small
  configuration editors: UID whitelist, secret keys, server-bar colours.
- **Top tab bar** (`TopTabs`). Tab toggling, the filter text, the add-pair
  rule, the syncshell limits, pin and click-through, bulk permissions.
- **Theme editor** (`ThemeEditor`, on `Colors`). The active palette versus
  the working palette versus the presets.
- **Pair list** (`DrawFolders`). Which folders the main window builds, in
  what order, and how each folder is filtered and sorted.
- **Colour JSON converter** (`Vector4Json`). Reads the array and object
  forms; writes the array form.
- **Theme service** (`ThemeService`). The built-in modern themes merged with
  converted legacy presets, lookup with fallback, and the configured name
  and opacity.
- **Group identity** (`GroupData`). The alias-or-GID display rule.

`Seqs`, `Int32`, `Text` and `Wrappers` are shared helpers:

- `Seqs`: filter, tail, stable sort by key.
- `Int32`: 32-bit wrap-around and C#'s truncating division.
- `Text`: ASCII case folding and substring search.
- `Wrappers`: `Option`.

Clocks are passed in as parameters (ticks), and so are the theme and preset
tables. The configuration store is modelled as fields plus a count of saves.
Messages published on the mediator are modelled as counters or as sequences
of what was sent.

## Model

| member | source | states |
|---|---|---|
| FileTransfers.ConvertLimit | XIVSync/WebAPI/Files/FileTransferOrchestrator.cs:158-164 | Converting the configured limit to bytes per second uses 32-bit arithmetic. The result always stays in `int` range. |
| FileTransfers.ConvertLimitIsWrappedProduct | XIVSync/WebAPI/Files/FileTransferOrchestrator.cs:158-164 | Bps and any unlisted unit multiply by 1, KBps by 1024, MBps by 1024·1024. The result is that exact product wrapped once to 32 bits. |
| FileTransfers.DownloadLimitPerSlot | XIVSync/WebAPI/Files/FileTransferOrchestrator.cs:154-176 | The limit as written. The result is 0 exactly when the configured limit is ≤ 0; for a positive limit it lies between 1 and `long.MaxValue`. With a negative used-slot count (after a failed resize), a converted limit of at least that count in magnitude gives `long.MaxValue`, and a smaller non-negative one gives 1. |
| FileTransfers.DownloadLimitPerSlotExact | XIVSync/WebAPI/Files/FileTransferOrchestrator.cs:165-175 | When the product does not wrap and the used count is not negative, the result is the bytes-per-second limit divided by the used slots, with zero slots counted as one, and clamped to at least 1. |
| FileTransfers.UnlimitedExactly | XIVSync/WebAPI/Files/FileTransferOrchestrator.cs:165-175 | `long.MaxValue` (no limit) comes out exactly when the limit is positive and the converted limit and the divisor have opposite signs, with the converted limit at least the divisor in magnitude. |
| FileTransfers.WrapToNegative | XIVSync/WebAPI/Files/FileTransferOrchestrator.cs:169-174 | 2048 MBps converts to `int.MinValue`, so the negative-quotient branch returns `long.MaxValue`: no limit at all. |
| FileTransfers.WrapToZero | XIVSync/WebAPI/Files/FileTransferOrchestrator.cs:156-175 | 4096 MBps converts to 0 and is clamped to 1 byte per second. 2047 MBps gives 2047·2^20. |
| FileTransfers.DownloadLimitPerSlotWide | XIVSync/WebAPI/Files/FileTransferOrchestrator.cs:154-176 | The corrected limit, converted in 64 bits. It is 0 exactly when the limit is ≤ 0, and otherwise between 1 and `long.MaxValue`. With a non-negative used count it never exceeds the whole limit in bytes. With a negative one it is `long.MaxValue` exactly when the product reaches the count's magnitude, and 1 otherwise. |
| FileTransfers.DownloadLimitPerSlotWideMonotonic | XIVSync/WebAPI/Files/FileTransferOrchestrator.cs:154-176 | With the corrected conversion, a higher configured limit never gives a lower per-slot limit, whatever the used-slot count. |
| FileTransfers.WideAgreesWithoutWrap | XIVSync/WebAPI/Files/FileTransferOrchestrator.cs:158-168 | For every used-slot count, the corrected limit equals the code's limit whenever the 32-bit product does not wrap; the overflowing division cannot occur then. |
| FileTransfers.NewOrchestrator | XIVSync/WebAPI/Files/FileTransferOrchestrator.cs:27-40 | No orchestrator is created exactly when a configured download or upload count is ≤ 0, since `new SemaphoreSlim` throws. Otherwise both semaphores start full at their configured counts, the slot counters match them, and no request is ready. |
| FileTransfers.FileTransferOrchestrator.constructor | XIVSync/WebAPI/Files/FileTransferOrchestrator.cs:36-40 | For positive counts, both semaphores start full at their configured counts. The slot counters match them, and no request is ready. |
| FileTransfers.FileTransferOrchestrator.UsedDownloadSlots | XIVSync/WebAPI/Files/FileTransferOrchestrator.cs:24 | Used download slots are the counter minus the free count, as a 32-bit subtraction. While the counter matches the semaphore the result is in [0, capacity] and adds up with the free count to the capacity. After a failed resize the counter is ≤ 0 and the result is the counter minus the free count, which is ≤ 0. |
| FileTransfers.FileTransferOrchestrator.UsedUploadSlots | XIVSync/WebAPI/Files/FileTransferOrchestrator.cs:25 | The same for uploads: in [0, capacity] while the counter matches the semaphore, and ≤ 0 after a failed resize. |
| FileTransfers.FileTransferOrchestrator.Configure | XIVSync/MareConfiguration/Configurations/MareConfig.cs:31-33 | A settings change replaces only the configured counts and limit. The semaphores and counters are untouched until the next wait. |
| FileTransfers.FileTransferOrchestrator.WaitForDownloadSlot | XIVSync/WebAPI/Files/FileTransferOrchestrator.cs:125-138 | The semaphore is rebuilt at the configured count only when that count differs and every slot is free. Then a slot is taken if one is free, and exactly one limit-changed message is published; otherwise the caller must wait. A non-positive count makes the resize fail after the counter was updated, which leaves the counter out of step with the semaphore; with 0 configured, the used count becomes minus the free count. Nothing else changes. |
| FileTransfers.FileTransferOrchestrator.WaitForUploadSlot | XIVSync/WebAPI/Files/FileTransferOrchestrator.cs:140-152 | The same resize-then-acquire rule for uploads, without a message, and the same broken counter after a failed resize. Nothing else changes. |
| FileTransfers.FileTransferOrchestrator.ReleaseDownloadSlot | XIVSync/WebAPI/Files/FileTransferOrchestrator.cs:76-87 | Release frees one slot and publishes one message. At full count it changes nothing and publishes nothing, because the exception is swallowed. Free never exceeds capacity. |
| FileTransfers.FileTransferOrchestrator.ReleaseUploadSlot | XIVSync/WebAPI/Files/FileTransferOrchestrator.cs:89-99 | Release frees one upload slot, or does nothing at full count. |
| FileTransfers.FileTransferOrchestrator.MarkDownloadReady | XIVSync/WebAPI/Files/FileTransferOrchestrator.cs:51-54 | The ready handler records the request, which is then ready. |
| FileTransfers.FileTransferOrchestrator.ClearDownloadRequest | XIVSync/WebAPI/Files/FileTransferOrchestrator.cs:61-74 | Clearing forgets exactly that request: it is no longer ready, and every other request's readiness is unchanged. |
| FileTransfers.FileTransferOrchestrator.IsDownloadReady | XIVSync/WebAPI/Files/FileTransferOrchestrator.cs:66-74 | A request never recorded is not ready; a recorded one is ready exactly when its recorded flag is true. |
| FileTransfers.FileTransferOrchestrator.CurrentDownloadLimitPerSlot | XIVSync/WebAPI/Files/FileTransferOrchestrator.cs:154-176 | The corrected per-slot limit (the conversion done in 64 bits) on any valid state, not the code's wrapping value. It is 0 exactly when no positive limit is configured, and otherwise between 1 and `long.MaxValue`. While the counters match the semaphores it is never `long.MaxValue`. It equals the code's value whenever the 32-bit product does not wrap. |
| FileTransfers.FileTransferOrchestrator.CodeDownloadLimitPerSlot | XIVSync/WebAPI/Files/FileTransferOrchestrator.cs:154-176 | The per-slot limit as the code computes it, with the 32-bit conversion. There is no value exactly when C# throws for `int.MinValue / -1`, which cannot happen while the counters match the semaphores. It is 0 exactly when no positive limit is configured, and agrees with the corrected limit whenever the product does not wrap. At 2048 MBps with a non-negative used count it is `long.MaxValue`, and at 4096 MBps it is 1. |
| ReadGovernor.Trimmed | XIVSync/Security/ReadGovernor.cs:58-63 | Trimming leaves a suffix of the queue whose head is inside the 60-second window. Every dropped read was outside it. |
| ReadGovernor.TrimmedWithinWindow | XIVSync/Security/ReadGovernor.cs:58-63 | With chronological reads, every read left after trimming is inside the window. |
| ReadGovernor.SumBytesAppend | XIVSync/Security/ReadGovernor.cs:29-33 | Enqueuing a read adds exactly its bytes to the queue's total. |
| ReadGovernor.NoteKeepsChronological | XIVSync/Security/ReadGovernor.cs:29-35 | Noting a read stamped no earlier than the queued ones keeps the trimmed queue chronological. |
| ReadGovernor.PathsBound | XIVSync/Security/ReadGovernor.cs:45-47 | There are never more distinct paths than queued reads. |
| ReadGovernor.PathsMembership | XIVSync/Security/ReadGovernor.cs:45-47 | A path counts as seen exactly when some queued read has it (ordinal). |
| ReadGovernor.Classify | XIVSync/Security/ReadGovernor.cs:37-50 | The state is `Slow` exactly when there are too many reads or too many bytes, whatever the paths. It is `Off` exactly when both are within limits and the queue is empty or has no more distinct paths than the threshold. |
| ReadGovernor.SweepNeedsLowThreshold | XIVSync/Security/ReadGovernor.cs:42-47 | A sweep needs threshold < distinct paths ≤ reads ≤ file limit. |
| ReadGovernor.DefaultsNeverSweep | XIVSync/Security/ReadGovernor.cs:22-27 | With the default thresholds (120 files, 200 distinct paths), no queue is ever a sweep. |
| ReadGovernor.DistinctExceeds | XIVSync/Security/ReadGovernor.cs:45-49 | The early-exit counting loop answers true exactly when the queue is non-empty and has more distinct paths than the threshold. |
| ReadGovernor.Governor.constructor | XIVSync/Security/ReadGovernor.cs:22-27 | The thresholds are as given; the queue is empty and the total is 0. |
| ReadGovernor.Governor.Default | XIVSync/Security/ReadGovernor.cs:22-27 | The default thresholds: 120 files, 1 610 612 736 bytes and 200 distinct paths per minute. |
| ReadGovernor.Governor.Note | XIVSync/Security/ReadGovernor.cs:29-35 | The read is appended at the back and the queue is trimmed. The new read is always last. The running total stays equal to the queued bytes. |
| ReadGovernor.Governor.Trim | XIVSync/Security/ReadGovernor.cs:58-63 | The dequeue loop leaves exactly `Trimmed(old queue)`. The total stays equal to the queued bytes. |
| ReadGovernor.Governor.State | XIVSync/Security/ReadGovernor.cs:37-50 | Trim, then classify. The result is `Slow` for too many reads or bytes, otherwise a sweep for too many distinct paths, otherwise `Off`. |
| UILogging.LogBuffer.constructor | XIVSync/Interop/UILoggingProvider.cs:9 | The shared queue starts empty. |
| UILogging.UILogger.constructor | XIVSync/Interop/UILoggingProvider.cs:44-49 | A logger keeps its category, the shared queue and the bound. |
| UILogging.UILogger.Log | XIVSync/Interop/UILoggingProvider.cs:61-83 | A disabled level (`None`) changes nothing. Otherwise the buffer becomes the last `maxEntries` entries of old buffer + the new entry: FIFO eviction. The new entry, with the logger's category, the level and the message, is last. The buffer holds at most `maxEntries` entries. |
| UILogging.UILoggingProvider.constructor | XIVSync/Interop/UILoggingProvider.cs:8-10 | No loggers yet, and one fresh empty buffer. |
| UILogging.UILoggingProvider.CreateLogger | XIVSync/Interop/UILoggingProvider.cs:12-15 | A known category returns its registered logger unchanged. A new one registers a fresh logger on the shared buffer with the bound 10000. |
| UILogging.UILoggingProvider.GetLogEntries | XIVSync/Interop/UILoggingProvider.cs:17-20 | A snapshot of the buffer, oldest first. |
| UILogging.UILoggingProvider.GetRecentLogs | XIVSync/Interop/UILoggingProvider.cs:22-25 | The last min(count, size) entries (none for count ≤ 0), in insertion order. The default count, 1000, is the constant `RecentLogsDefault`. |
| UILogging.UILoggingProvider.ClearLogs | XIVSync/Interop/UILoggingProvider.cs:27-30 | The buffer is left empty. |
| UILogging.UILoggingProvider.Dispose | XIVSync/Interop/UILoggingProvider.cs:32-36 | Both the logger table and the buffer are left empty. |
| UILogging.SharedBuffer | XIVSync/Interop/UILoggingProvider.cs:12-15 | The same category yields the same logger. Entries logged at enabled levels through loggers of any two categories are appended to the one shared buffer in call order, and a `None` entry is dropped. |
| UILogging.IsEnabled | XIVSync/Interop/UILoggingProvider.cs:56-59 | Exactly the six real levels, Trace to Critical, are enabled; `None` is not. |
| LogCategories.Classify | XIVSync/UI/ModernSettingsUi.cs:1499-1510 | Any category other than `Other` has one of its keywords in the lower-cased name. No group of higher priority (Plugin, Auth, Services, Network, File) has one. |
| LogCategories.ClassifyAtMost | XIVSync/UI/EventViewerUI.cs:119-130 | A name containing a keyword of category c is classified as c or a category of higher priority. |
| LogCategories.NameInjective | XIVSync/UI/ModernSettingsUi.cs:1499-1510 | The six category names are distinct. |
| LogCategories.ClassifyExactly | XIVSync/UI/ModernSettingsUi.cs:1499-1510 | Conversely, a category with a keyword in the lower-cased name (or `Other`), with no keyword of any higher-priority group, is the classification. |
| LogCategories.ClassifyIgnoresCase | XIVSync/UI/ModernSettingsUi.cs:1499-1510 | The classification of a name, its lower-cased form and its upper-cased form are the same. |
| SettingsUi.ShouldShowLogLevel | XIVSync/UI/ModernSettingsUi.cs:1451-1463 | Error and Critical share the Error toggle. `None` is always shown. All toggles on shows everything; all off shows only `None`. |
| SettingsUi.GetLogLevelText | XIVSync/UI/ModernSettingsUi.cs:1479-1491 | Every tag has three letters, and "UNK" is produced exactly for `None`. |
| SettingsUi.LogLevelTextInjective | XIVSync/UI/ModernSettingsUi.cs:1479-1491 | Different levels get different tags. |
| SettingsUi.TruncateCategory | XIVSync/UI/ModernSettingsUi.cs:1493-1497 | The output has at most 15 characters. A name of up to 15 is unchanged; a longer one becomes its first 12 characters plus "...". |
| SettingsUi.GetFilteredLogs | XIVSync/UI/ModernSettingsUi.cs:1512-1548 | The filtered log is never longer than the log. |
| SettingsUi.GetFilteredLogsSpec | XIVSync/UI/ModernSettingsUi.cs:1512-1548 | An entry is kept exactly when all three tests pass: the search text is empty or occurs (any case) in the message or category, the level is shown, and the category box is ticked. The output is an order-preserving subsequence. |
| SettingsUi.GetFilteredLogsAllShown | XIVSync/UI/ModernSettingsUi.cs:1512-1548 | No search text, with all levels and categories on, shows the whole log. |
| SettingsUi.NextSecretKeyIndex | XIVSync/UI/ModernSettingsUi.cs:1782-1789 | The next index is 0 with no keys, otherwise the 32-bit `Max + 1`. It is not an existing index unless `int.MaxValue` is in use, and then it is `int.MinValue`. |
| SettingsUi.ModernSettingsUi.constructor | XIVSync/UI/ModernSettingsUi.cs:73-74 | The input field is empty, nothing is selected (-1), and the lists are as configured. |
| SettingsUi.ModernSettingsUi.EditUidToAdd | XIVSync/UI/ModernSettingsUi.cs:757-758 | Typing stores the input text. |
| SettingsUi.ModernSettingsUi.SelectEntry | XIVSync/UI/ModernSettingsUi.cs:778-786 | Clicking entry i selects it. |
| SettingsUi.ModernSettingsUi.AddToWhitelist | XIVSync/UI/ModernSettingsUi.cs:759-769 | The button is disabled for empty input. A UID not yet listed (ordinal) is appended and saved; a listed one leaves the list alone. The input is cleared either way, and no duplicate is ever created. |
| SettingsUi.ModernSettingsUi.DeleteSelectedUid | XIVSync/UI/ModernSettingsUi.cs:790-797 | With a selection, exactly that index is removed and the list saved. The selection becomes -1. |
| SettingsUi.ModernSettingsUi.AddSecretKey | XIVSync/UI/ModernSettingsUi.cs:1782-1789 | The index used is 0 when there are no keys, and otherwise the largest present index plus 1, wrapped to 32 bits. A "New Secret Key" is added under it and saved exactly when it is not already present; otherwise nothing changes. This always succeeds unless `int.MaxValue` is in use. Once it is, adding succeeds exactly when `int.MinValue` is not in use. |
| SettingsUi.ModernSettingsUi.DeleteSecretKey | XIVSync/UI/ModernSettingsUi.cs:1763-1771 | A key is removed (and saved) only when no authentication uses it and Ctrl is held. A key in use is never removed. |
| SettingsUi.ModernSettingsUi.SetDtrColor | XIVSync/UI/ModernSettingsUi.cs:1991-2006 | Index 0/1/2 sets the default, not-connected or in-range colours, and any other index sets nothing. The configuration is saved every time. |
| EventViewer.SeverityShown | XIVSync/UI/EventViewerUI.cs:109-115 | An unlisted severity always passes, and so does every severity when all boxes are ticked. |
| EventViewer.FilterEvents | XIVSync/UI/EventViewerUI.cs:69-117 | The view is never longer than the events. |
| EventViewer.FilterEventsSpec | XIVSync/UI/EventViewerUI.cs:72-116 | An event is in the view exactly when it passes, in the original order. Passing means the free text is in source, character, UID or message; each other box matches its field; and the category and severity boxes are ticked. |
| EventViewer.ClearedFilterKeepsAll | XIVSync/UI/EventViewerUI.cs:132-154 | With cleared filters the view is every event. |
| EventViewer.NewestFirst | XIVSync/UI/EventViewerUI.cs:180-184 | The sorted list is a permutation of the events. |
| EventViewer.NewestFirstOrdered | XIVSync/UI/EventViewerUI.cs:188-194 | Each event in the sorted list is at least as recent as every later one. |
| EventViewer.EventViewerUI.constructor | XIVSync/UI/EventViewerUI.cs:22-40 | Empty filters, all boxes ticked, no events, and a view consistent with them. |
| EventViewer.EventViewerUI.RecreateFilter | XIVSync/UI/EventViewerUI.cs:69-117 | The view becomes the filter applied to the current events and boxes. |
| EventViewer.EventViewerUI.SetCurrentEvents | XIVSync/UI/EventViewerUI.cs:42-53 | The setter stores the list and rebuilds the view from it. |
| EventViewer.EventViewerUI.ClearFilters | XIVSync/UI/EventViewerUI.cs:132-154 | All text boxes are emptied and all boxes ticked. The view is exactly the current events. |
| EventViewer.EventViewerUI.EditFilters | XIVSync/UI/EventViewerUI.cs:242-276 | After an edit the view matches the new boxes; the events are unchanged. |
| EventViewer.EventViewerUI.OnOpen | XIVSync/UI/EventViewerUI.cs:180-184 | Events are loaded newest first and the filters cleared, so the view is every event. |
| EventViewer.EventViewerUI.Refresh | XIVSync/UI/EventViewerUI.cs:188-194 | While new events are available they are reloaded newest first and the filters kept; otherwise nothing changes. |
| TopTabs.CanAddPair | XIVSync/UI/TopTabMenu.cs:221-222 | "Add" is enabled exactly for a non-empty input that is neither the UID nor the alias (ordinal) of any direct pair. |
| TopTabs.OwnedSyncshells | XIVSync/UI/TopTabMenu.cs:532-540 | Owned distinct syncshells never outnumber joined distinct ones. |
| TopTabs.CanCreateSyncshell | XIVSync/UI/TopTabMenu.cs:532-534 | Creating is never enabled for a create limit ≤ 0, and always enabled while fewer distinct syncshells are joined than the limit. |
| TopTabs.CanJoinSyncshell | XIVSync/UI/TopTabMenu.cs:543-546 | Joining is never enabled for a join limit ≤ 0, and always enabled while the joined list is shorter than the limit; with no syncshells it is enabled exactly for a positive limit. |
| TopTabs.CreateBlockedMeansJoined | XIVSync/UI/TopTabMenu.cs:532-548 | Creating is disabled only when at least the create limit of syncshells is joined. |
| TopTabs.BulkIndividual | XIVSync/UI/TopTabMenu.cs:664-669 | The bulk change has exactly the bidirectional pairs' UIDs as keys, each mapped to the action on its own permissions. |
| TopTabs.BulkIndividualDefined | XIVSync/UI/TopTabMenu.cs:678-683 | The dictionary is built exactly when no two bidirectional pairs share a UID; otherwise `ToDictionary` throws. |
| TopTabs.TopTabMenu.constructor | XIVSync/UI/TopTabMenu.cs:29 | No tab, empty filter and input, nothing pinned, nothing sent. |
| TopTabs.TopTabMenu.SetFilter | XIVSync/UI/TopTabMenu.cs:55-67 | The value is always stored. One refresh is published exactly when it differs from the old value ignoring case. |
| TopTabs.TopTabMenu.SetTabSelection | XIVSync/UI/TopTabMenu.cs:68-79 | Leaving the filter tab empties the filter, with a refresh if it was not empty. Any other change keeps the filter. |
| TopTabs.TopTabMenu.PressTab | XIVSync/UI/TopTabMenu.cs:119-122 | A tab button selects its tab, or goes back to no tab when that tab was already selected. Pressing any button while the filter tab is selected leaves that tab, so the filter is emptied, with one refresh when it was non-empty. Otherwise the filter and the refreshes are unchanged. |
| TopTabs.TopTabMenu.ClearFilterButton | XIVSync/UI/TopTabMenu.cs:243-247 | The filter becomes empty, with one refresh when it was not already empty. |
| TopTabs.TopTabMenu.EditPairToAdd | XIVSync/UI/TopTabMenu.cs:219 | Typing stores the add-pair input. |
| TopTabs.TopTabMenu.ClickAddPair | XIVSync/UI/TopTabMenu.cs:219-228 | "Add" is enabled for a non-empty input that is no direct pair's UID or alias (ordinal). It sends exactly one request and clears the input; when disabled, nothing changes. |
| TopTabs.TopTabMenu.SetPinned | XIVSync/UI/TopTabMenu.cs:604-610 | The pin box stores its value. |
| TopTabs.TopTabMenu.SetClickThrough | XIVSync/UI/TopTabMenu.cs:614-626 | Enabling click-through also pins and closes the tab, and empties the filter without a refresh. Disabling changes nothing else. |
| TopTabs.TopTabMenu.ClearUserFilter | XIVSync/UI/TopTabMenu.cs:637-642 | The filter is empty and no tab is selected. |
| Colors.SingleEqualsEquivalence | XIVSync/UI/CompactUI.cs:97-108 | `float.Equals` is reflexive, symmetric and transitive. |
| Colors.ZeroPatterns | XIVSync/UI/CompactUI.cs:97-108 | Exactly two bit patterns are zero, +0 and -0. |
| Colors.EqualsBeyondIdentity | XIVSync/UI/CompactUI.cs:97-108 | Two different bit patterns are `Equals` exactly when they are +0 and -0, or both NaNs. |
| Colors.With | XIVSync/UI/CompactUI.cs:1058-1078 | An editor row stores its colour and leaves the other sixteen unchanged. |
| ThemeEditor.ThemesEqualEquivalence | XIVSync/UI/CompactUI.cs:97-108 | `ThemesEqual` (all 17 colours `Equals`) is an equivalence relation. |
| ThemeEditor.Clone | XIVSync/UI/CompactUI.cs:1111-1133 | A clone has every colour of the original and is `ThemesEqual` to it. |
| ThemeEditor.Lookup | XIVSync/UI/CompactUI.cs:1084-1088 | A name is found exactly when some preset has it, and what is found is that preset's palette. |
| ThemeEditor.ThemeEditor.constructor | XIVSync/UI/CompactUI.cs:160-165 | Default palettes and "Blue". A configured palette becomes active, and the first preset it matches becomes selected and last-selected, or "Blue" stays when none matches. |
| ThemeEditor.ThemeEditor.ToggleThemeInline | XIVSync/UI/CompactUI.cs:75-84 | Opening restores the last-selected preset and copies the active palette into the working one. Closing changes nothing else. |
| ThemeEditor.ThemeEditor.IsThemeCustomized | XIVSync/UI/CompactUI.cs:86-95 | Customised exactly when the active palette matches no preset. |
| ThemeEditor.ThemeEditor.PresetLabel | XIVSync/UI/CompactUI.cs:1036 | The label is "Custom" when customised, else the selected preset. |
| ThemeEditor.ThemeEditor.DetectCurrentPreset | XIVSync/UI/CompactUI.cs:110-123 | The first matching preset, in table order, becomes selected and last-selected. With no match both names stay. |
| ThemeEditor.ThemeEditor.PickPreset | XIVSync/UI/CompactUI.cs:1040-1049 | Choosing preset k makes it selected and last-selected, and makes its colours both the working and the active palette. |
| ThemeEditor.ThemeEditor.EditColor | XIVSync/UI/CompactUI.cs:1058-1078 | One row of the working palette changes, and the active palette previews it. |
| ThemeEditor.ThemeEditor.ResetToPreset | XIVSync/UI/CompactUI.cs:1084-1088 | The working and active palettes become the selected preset, or the defaults when no preset has that name. |
| ThemeEditor.ThemeEditor.Cancel | XIVSync/UI/CompactUI.cs:1091-1092 | Cancel only closes the editor. |
| ThemeEditor.ThemeEditor.Save | XIVSync/UI/CompactUI.cs:1095-1100 | The working palette becomes active and is persisted with one save, and the editor closes. |
| ThemeEditor.CancelKeepsPreview | XIVSync/UI/CompactUI.cs:1084-1092 | Edit, cancel, reopen: the edit survives in both palettes, nothing is persisted, and nothing is saved. |
| DrawFolders.FilteredPairsSpec | XIVSync/UI/CompactUI.cs:580-588 | A pair survives the search exactly when the filter occurs (any case) in its alias-or-UID, note or player name. An empty search keeps every pair. |
| DrawFolders.DisplayName | XIVSync/UI/CompactUI.cs:590-593 | The sort name is the note, the player name or the alias-or-UID. It is null exactly when character names are shown for visible pairs, notes are preferred, the player name is non-empty and there is no note. A present note is used whenever notes are preferred or character names are not shown. |
| DrawFolders.NameKey | XIVSync/UI/CompactUI.cs:590-593 | Every name key is non-empty. Its first element is 0 for a null name and 1 otherwise, so a null name sorts first. |
| DrawFolders.BasicSorted | XIVSync/UI/CompactUI.cs:597-601 | A sorted folder is a permutation of its pairs. |
| Seqs.SortByKeyStable | XIVSync/UI/CompactUI.cs:597-601 | The sort is stable, as LINQ's `OrderBy`/`ThenBy` are: the elements with any one key come out in their input order. |
| DrawFolders.BasicSortedOrder | XIVSync/UI/CompactUI.cs:597-601 | Visible pairs come first, then online ones, then by display name ignoring case. |
| DrawFolders.MemberRank | XIVSync/UI/CompactUI.cs:635-644 | Rank is in 0..4 (owner, moderator, pinned, visible, other), and 0 exactly for the owner. |
| DrawFolders.GroupSorted | XIVSync/UI/CompactUI.cs:632-646 | A syncshell folder is a permutation of its members. |
| DrawFolders.GroupSortedOrder | XIVSync/UI/CompactUI.cs:632-646 | Online members come first, then by rank, then by display name. |
| DrawFolders.SortedGroups | XIVSync/UI/CompactUI.cs:628 | The syncshells are a permutation of the joined ones. |
| DrawFolders.SortedGroupsOrder | XIVSync/UI/CompactUI.cs:628 | Syncshells are in alias-or-GID order ignoring case. |
| DrawFolders.VisiblePlan | XIVSync/UI/CompactUI.cs:620-625 | There is one visible folder when it is enabled, and none otherwise. |
| DrawFolders.SyncshellPlan | XIVSync/UI/CompactUI.cs:627-654 | Either one folder per sorted syncshell, or a single folder grouping them all. |
| DrawFolders.TagPlan | XIVSync/UI/CompactUI.cs:656-663 | One folder per tag, in the tag handler's order. |
| DrawFolders.OfflinePlan | XIVSync/UI/CompactUI.cs:671-686 | An offline folder when enabled, followed by an offline-syncshell folder when both settings are on. |
| DrawFolders.GetDrawFolders | XIVSync/UI/CompactUI.cs:574-692 | Each position of the plan is built into its folder. |
| DrawFolders.FolderCount | XIVSync/UI/CompactUI.cs:574-692 | The number of folders is the sum of the parts: visible, syncshells or grouped, tags, untagged, offline, unpaired. |
| DrawFolders.TagsStart | XIVSync/UI/CompactUI.cs:620-654 | The tag folders start after the visible folder, if any, and after the syncshell folders or the one folder grouping them. |
| DrawFolders.FolderOrderVisible | XIVSync/UI/CompactUI.cs:620-625 | When enabled, the first folder is the visible folder. |
| DrawFolders.FolderOrderSyncshells | XIVSync/UI/CompactUI.cs:651-654 | Ungrouped syncshells follow the visible folder: the i-th is the folder of the i-th syncshell in name order. |
| DrawFolders.FolderOrderGrouped | XIVSync/UI/CompactUI.cs:651-652 | Grouped syncshells take one folder after the visible one, holding all syncshell folders in name order. |
| DrawFolders.FolderOrderTags | XIVSync/UI/CompactUI.cs:656-663 | The tag folders come next: the i-th is the folder of the i-th tag. |
| DrawFolders.FolderOrderUntagged | XIVSync/UI/CompactUI.cs:665-669 | The untagged folder follows the tag folders, titled Online when offline pairs are split off and All otherwise. |
| DrawFolders.FolderOrderOffline | XIVSync/UI/CompactUI.cs:671-686 | When enabled, the offline folder follows the untagged one, and the offline-syncshell folder follows it when that is enabled too. |
| DrawFolders.FolderOrderLast | XIVSync/UI/CompactUI.cs:688-690 | The unpaired folder of one-sided pairs is always last. |
| DrawFolders.TagFolderContents | XIVSync/UI/CompactUI.cs:656-663 | A tag folder shows exactly the searched pairs its rule and the online-or-paused test accept. Its full list holds exactly the pairs the rule accepts. |
| DrawFolders.GroupFolderContents | XIVSync/UI/CompactUI.cs:630-633 | A syncshell folder shows exactly the searched members that are online or paused, or all of them when offline pairs are not split off. Its full list is every member. |
| DrawFolders.VisibleFolderRule | XIVSync/UI/CompactUI.cs:604-606 | The visible folder holds only visible pairs, and only direct pairs unless syncshell users are allowed. |
| Vector4Json.Next | XIVSync/UI/CompactUI.cs:1534-1565 | `reader.Read()` advances one token, or stays at the last one. |
| Vector4Json.GetSingle | XIVSync/UI/CompactUI.cs:1537-1545 | `GetSingle` succeeds exactly on a number token. |
| Vector4Json.AxisOf | XIVSync/UI/CompactUI.cs:1554-1560 | x/r/red, y/g/green, z/b/blue and w/a/alpha (any case) name the four components. |
| Vector4Json.Assign | XIVSync/UI/CompactUI.cs:1554-1560 | A member sets the component it names and no other. |
| Vector4Json.Read | XIVSync/UI/CompactUI.cs:1534-1565 | A leading token other than `[` or `{` is an error. A successful read ends at or after the start. |
| Vector4Json.ReadLast | XIVSync/UI/CompactUI.cs:1534-1565 | Both forms end inside the input, never before the start. |
| Vector4Json.ReadVector4 | XIVSync/UI/CompactUI.cs:1534-1565 | The token loop assigning the four locals computes exactly `Read`. |
| Vector4Json.Write | XIVSync/UI/CompactUI.cs:1567-1576 | The output is `[x, y, z, w]` exactly when all components are finite. |
| Vector4Json.RoundTrip | XIVSync/UI/CompactUI.cs:1537-1545 | Reading what `Write` wrote gives back the same colour, ending on `]`. |
| Vector4Json.ApplyComponents | XIVSync/UI/CompactUI.cs:1546-1563 | Each component is the last value given for it, or the start value when none is. |
| Vector4Json.ReadMembersWellFormed | XIVSync/UI/CompactUI.cs:1546-1563 | On well-formed members the loop ends on `}` with the members applied in order. |
| Vector4Json.ReadObject | XIVSync/UI/CompactUI.cs:1546-1563 | The object form: each component is its last named value, 0 when missing, and reading ends on `}`. |
| Vector4Json.AxisOfIgnoresCase | XIVSync/UI/CompactUI.cs:1554-1560 | A name, its lower-cased form and its upper-cased form set the same component. |
| ThemeService.ConvertLegacyTheme | XIVSync/UI/Theming/ModernThemeService.cs:67-90 | Name is the lower-cased key and display name the key as given. Opacity is the panel alpha, and the text and accent colours are mapped. |
| ThemeService.ConvertedNameIsLower | XIVSync/UI/Theming/ModernThemeService.cs:69-72 | A converted name is already lower case. |
| ThemeService.GetAllAvailableThemes | XIVSync/UI/Theming/ModernThemeService.cs:47-62 | The loop computes the merge: each preset in order, added under its lower-cased name only when that key is absent. |
| ThemeService.MergeKeys | XIVSync/UI/Theming/ModernThemeService.cs:47-62 | The merged keys are the built-in keys plus the presets' lower-cased names. |
| ThemeService.MergeKeepsExisting | XIVSync/UI/Theming/ModernThemeService.cs:54 | A theme already in the table is never replaced. |
| ThemeService.MergeFirstPresetWins | XIVSync/UI/Theming/ModernThemeService.cs:47-62 | A new key holds the conversion of the first preset with that lower-cased name. |
| ThemeService.MergedNamesMatchKeys | XIVSync/UI/Theming/ModernThemeService.cs:69-72 | Every added theme is named by its key. |
| ThemeService.LegacyPurpleKeepsBuiltIn | XIVSync/UI/Theming/ModernTheme.cs:91-98 | The legacy "Purple" lower-cases onto the built-in "purple" key, which keeps the built-in theme. |
| ThemeService.DisplayNames | XIVSync/UI/Theming/ModernThemeService.cs:41-42 | Same keys as the table, each mapped to its theme's display name. |
| ThemeService.ModernThemeService.constructor | XIVSync/UI/Theming/ModernThemeService.cs:19-29 | The theme starts as "default". A non-empty configured name known to the merged table (any case) replaces it, then a positive configured opacity is applied. |
| ThemeService.ModernThemeService.LoadThemeSettings | XIVSync/UI/Theming/ModernThemeService.cs:127-156 | An empty or unknown name keeps the current theme; otherwise the named theme becomes current. The opacity is applied only when it is > 0. |
| ThemeService.ModernThemeService.SaveThemeSettings | XIVSync/UI/Theming/ModernThemeService.cs:161-174 | The configuration stores the current theme's name and opacity, with one save. |
| ThemeService.ModernThemeService.SetTheme | XIVSync/UI/Theming/ModernThemeService.cs:95-111 | Lookup by lower-cased name, falling back to "default". The configured name becomes the theme's name, with one save, and `ThemeChanged` is raised once with it. |
| ThemeService.ModernThemeService.GetThemeDisplayNames | XIVSync/UI/Theming/ModernThemeService.cs:41-42 | Exactly the merged table's keys (built-ins plus lower-cased presets), each mapped to its display name. |
| ThemeService.SetBuiltInTheme | XIVSync/UI/Theming/ModernThemeService.cs:95-111 | Setting a built-in key makes that built-in theme current and configured. |
| GroupData.AliasOrGID | MareAPI/XIVSyncAPI/Data/GroupData.cs:6-9 | The result is the GID when the alias is null or blank, and the alias when it has a non-whitespace character. It is always one of the two. |

## Left out

- The ImGui drawing, layout, styling and window flags of every window are presentation only. Only the state changes behind the controls are modelled. This includes the `InputText` maximum lengths, which the model does not enforce: 20 characters for the add-pair box (XIVSync/UI/TopTabMenu.cs:219) and 255 for the filter (XIVSync/UI/TopTabMenu.cs:238), and 20 for the whitelist box (XIVSync/UI/ModernSettingsUi.cs:757). TopTabs.TopTabMenu.EditPairToAdd, TopTabs.TopTabMenu.SetFilter and SettingsUi.ModernSettingsUi.EditUidToAdd take text of any length.
- Asynchronous waiting and concurrency are not modelled.
  - A wait that would block on `WaitAsync` returns `MustWait`.
  - The slots, the governor queue and the log queue are modelled sequentially, and races between the lock and the semaphores are not modelled.
- FileTransfers.FileTransferOrchestrator: the HTTP plumbing (`SendRequest*`, bearer token, user agent) is network I/O and is not part of this model. Guids are modelled as naturals.
- ReadGovernor.Governor.Note: the `long` running byte total is unbounded, so its 64-bit overflow is not modelled. `Apply` only sleeps and is left out.
- Clocks: `DateTime.UtcNow` and the log timestamps are parameters.
- Text matching: `ToLowerInvariant`, `ToUpperInvariant` and `OrdinalIgnoreCase` are modelled as ASCII case folding. Unicode case mapping is not modelled.
- Floating point: colours are bit patterns, with only classification and `float.Equals` modelled. The ×0.8 surface scaling, the surface constants of the built-in themes, HSV conversion and the colour conversions of the settings window are not modelled.
- ThemeService.ModernThemeService.SetBackgroundOpacity: the opacity clamp and the surface opacity update are float arithmetic and are left out.
- ThemeService.ModernThemeService.LoadThemeSettings: the source writes the opacity into the shared built-in theme instance. The model treats themes as values, so the aliasing with the static table is not modelled.
- Configuration failures: the try/catch around loading and saving the theme configuration, and the logger calls inside it, are not modelled. A null configured theme name is treated as empty.
- Data tables: the built-in theme table and the legacy preset table are parameters; their float colours are not transcribed.
- Vector4Json.Write: the JSON number text format is not modelled. A number token carries the float itself.
- DrawFolders.GetDrawFolders: each folder's `Dictionary` is modelled as a sequence in the order the LINQ query produces. Pair state (paused, one-sided, note) is given as plain facts of each pair, and the drawing objects are the folder values.
- EventViewer.EventViewerUI.RecreateFilter: the lazy list is modelled as the list it evaluates to. The message truncation loop depends on measured text width and is left out.
- TopTabs.TopTabMenu: the `GlobalControlCountdown` async delay and the `CreateSyncshellUI` task are left out. The bulk permission action is a parameter function on the permission bits.
- FileTransfers.DownloadLimitPerSlot: the one division C# refuses, `int.MinValue / -1` (an `OverflowException`), is excluded by a precondition. It needs a converted limit of exactly `int.MinValue` (2048 MBps or 2097152 KBps) while the used count is -1.
- FileTransfers.FileTransferOrchestrator.CurrentDownloadLimitPerSlot: returns the corrected 64-bit limit, not the wrapping code, and so never the code's `OverflowException`. FileTransfers.FileTransferOrchestrator.CodeDownloadLimitPerSlot is the code as written (see "## Findings").
- FileTransfers.FileTransferOrchestrator.constructor: takes positive counts only. The throw of `new SemaphoreSlim` for a count ≤ 0 is modelled by FileTransfers.NewOrchestrator, which then returns no orchestrator.
- SettingsUi.TruncateCategory: lengths are counted in characters. C# counts UTF-16 code units, so a name with characters outside the Basic Multilingual Plane is cut at a different place, and the 12-unit C# prefix can split a surrogate pair.
- SettingsUi.ModernSettingsUi.AddSecretKey: when `Dictionary.Add` throws for an existing index, the model adds nothing instead of propagating the exception.
- Clipboard, opening links and deleting cache files are host side effects and are left out.

## Findings

| source | as written | input that shows it | evidently intended | confidence | as-written member | corrected member |
|---|---|---|---|---|---|---|
| XIVSync/WebAPI/Files/FileTransferOrchestrator.cs:158-164 | `limit * 1024 * 1024` is computed in 32-bit `int` and wraps | 4096 MBps converts to 0 and is clamped to 1 byte/s per slot; 2048 MBps converts to `int.MinValue` and means no limit at all | the conversion made in 64 bits, so the per-slot limit grows with the configured limit | not executed | FileTransfers.WrapToZero | FileTransfers.DownloadLimitPerSlotWideMonotonic |
