# Site ownership, tags, tiers and the account's records

A model of the enterprise layer's rules about who owns a site and what follows from it, with proofs of what
those rules promise. `dafny verify dfyconfig.toml` checks the whole project.

## The parts

**Handing sites over.** `Offers` is the offer record and its store. `Protocol` is the whole hand-over as a machine:
offers (with the recipient, the sites already moved, the dates), owners and locks in `meta.json`, the claims of running
accepts, `createOffer` calls in flight, and a crash that loses what is in memory. Every action is one atomic step of the
source: one locked store update, one `meta.json` write, one claim. A run is any list of actions, so every interleaving
and every failure between two steps is a run. `Safety` proves an invariant of every step; `Theorems` states what holds in
every run. `Interference` says what everybody else can do to an offer somebody is moving.

`AcceptCheck` is the re-check before sites move, with the host rule and the limits check. `Calls` is how a running accept
meets the rest: each call works, fails, or takes effect behind an error, as an oracle says, any foreign actions happen just
before it, and a log of the calls fixes what became of the store, and which claims were taken, acted under and released. `Progress` and `Resume` say what a run's own steps leave
and what a later run can rely on. `Completion` is the forward completion as it runs, a class whose methods make one call
after the other; what they promise is told by the store and by the log, not by the methods themselves. `AcceptPage` is the
recipient's accept up to the page that answers it. `Loop` is the background loop's tick over the offers. `Replace` creates
an offer in place of older ones, with its rollback. `HostClosure` is the host rule when an offer is made or edited.

**Around it.** `Reconcile` brings the site markers back to the truth while others change both. `Invitations` is the accept
of an admin invitation with its undo, as a machine with any number of racing accepts and as the method that runs it.
`Deletion` is the deletion of an account.

**Tags.** `Tags` and `TagFilter` are the filter of the dashboard: its meaning, its compiled form, its query, its chips.
`TagsManage` and `TagsAccount` are rename, merge and delete across an account, and what repeating one does.

**Tier, log, consent.** `TierSync`, `Purge` and `Consent` are the resync of a tier, the retention of account logs, and the
cache of consent answers.

## What turned out false, and what holds instead

- *Every site an offer lists as done was moved by it.* No: an edit of the offer that was checked before, and written after,
  another offer of the same sender moved one of its sites to the same recipient puts that site back into the bundle, and
  the completion then counts it as taken over (`StaleEdit.DoneWithoutMoving`, a run of 19 actions). A done site was moved
  by this offer if and only if the sender still owned it when the acceptance started (`Theorems.DoneExactly`).
- *After a tier sync, all sites have the caps of the stored tier.* No: a pass that stamps one site with a new tier, fails on
  another, and is followed by the plan going back leaves the first site with the other tier's caps for good, because the
  stored tier then matches and every later pass returns at once (`TierSync.StuckAfterHalf`). One pass keeps the account
  consistent if and only if it does not stamp a site with another tier and then fail (`TierSync.ConsistentExactlyIf`);
  while the plan stays at one tier no retry is lost (`TierSync.NoRetryLost`).
- *An account deletion that reports success has deleted the account's sites.* Not when the store cannot list the account's
  markers at that moment: the error is dropped, nothing is listed, and the account goes while its sites stay
  (`Deletion.DoneWithASiteLeft`). They are gone if and only if that listing worked or there were none
  (`Deletion.Server.DeleteAccount`). And a deletion is refused at the start if and only if one of the account's locked
  sites could be read; one that cannot is passed over (`Deletion.Server.LockedSites`).
- *Nothing is purged of an account under an open case.* A site whose Info cannot be read is passed over by both walks, so an
  open case on it does not count (`Purge.OpenCaseDropped`). No entry of an account under an open case is ever dropped if
  and only if one of its open cases can be read, or the purge stops for another reason (`Purge.OpenCaseKeepsExactlyIf`);
  likewise for any lock and its longer retention (`Purge.HoldKeepsExactlyIf`).
- *An accept that is undone leaves no marker without a listed admin.* Not when the site was deleted after the marker was
  linked: the undo then cannot read the admins and leaves the marker, with no write failing (`Invitations.StrayMark`). At
  the undo a marker is left to an account that is not listed if and only if the site is gone or that step failed
  (`Invitations.MarkLeftExactlyIf`).
- *A hit in the consent cache means the stack answered within the TTL.* The TTL counts from the instant the answer is
  remembered: an answer that took 3 seconds is served 601 seconds later (`Consent.SlowAnswer`). The age of every hit an
  entry can give stays below a limit if and only if some answer was at most the limit less the TTL old when remembered
  (`Consent.AnswerAge`).
- *A whole group selected is all its listed tags selected.* A row that passes one and not the other exists if and only if
  the group lists no tag and the rest of the selection lets the row pass: whole it then lets nothing pass, spelled out it is
  as if it were not selected (`TagFilter.WholeIsAllItsTags`; `TagFilter.EmptyGroup` is such a row). A chip of a whole group
  keeps exactly the rows with another listed tag of it if and only if it lists another, or the rest keeps the row out
  anyway (`TagFilter.ChipKeepsTheOthers`).
- *Doing a rename again reaches what one undisturbed rename reaches.* It does for skipped sites and a lost registry write
  (`TagsAccount.RenameAgain`). A site whose Info could not be read the first time is not even listed, and if it has another
  case of the new tag, the renamed sites keep the case they got (`TagsAccount.CaseMayDiffer`). The account is the same if
  and only if both listings give the same spelling of the new tag, or the first rename wrote its own nowhere
  (`TagsAccount.RenameAgainExactlyIf`); the tags are always the same up to case (`TagsAccount.RenameAgainUpToCase`).

## Model

| member | source | states |
|---|---|---|
| Safety.EveryStep | ee/ownership/store.go:281-314 | every action of any actor, and a crash, keeps the invariant of the hand-over: well-formed records, one open offer per site, where every site of an accepting offer is, what a run may know, what waits to be put back |
| Theorems.MovedAtMostOnce | ee/transfer_accept.go:377-462 | in every run, `TransferSite` succeeds at most once for an offer and a site |
| Theorems.MovedStaysMoved | ee/transfer_accept.go:440-462 | a site moved and not recorded yet is the recipient's, or gone, while the offer is accepting, so recovery can tell |
| Theorems.OneOpenOfferPerSite | ee/ownership/store.go:214-234 | in every run a site is in at most one offer that is not final |
| Theorems.DoneExactly | ee/transfer_accept.go:521-551 | a done site was moved by this offer iff the sender owned it when the acceptance started; otherwise the recipient had it already |
| StaleEdit.DoneWithoutMoving | ee/transfer_send.go:908-984 | some run records a site as done that the offer never moved |
| Theorems.AcceptedBundle | ee/transfer_accept.go:813-873 | an accepting offer names a recipient other than the sender, and its bundle is 1 to 50 distinct sites, those the recipient posted |
| Theorems.OnlyTheClaimHolderWrites | ee/transfer_accept.go:92-100 | nobody but the run that holds the claim changes an accepting offer: no cancel, edit, decline, expiry, deletion, prune or rollback |
| Theorems.StaysFrozen | ee/transfer_accept.go:421-430 | over any run, an accepting offer's parties and bundle stay, its done sites only grow inside the bundle, and it leaves only for accepted with something moved or ended with nothing moved, then never changes |
| Theorems.OnlyPutBackReopens | ee/transfer_send.go:725-778 | a final offer changes again only by the rollback of the `createOffer` that cancelled it, to the state it had |
| Theorems.WhatEditsDo | ee/transfer_send.go:839-890 | which edit may change an offer how, and on whose word: sites, cancel, expiry, decline, pause, reopen |
| Theorems.WhenEditsTake | ee/transfer_send.go:839-890 | when each edit takes effect and exactly what it writes: cancel, dates and sites on the sender's word while open or paused, decline, expiry, pause, reopening, the deletion of an account; sites also need 1 to 50 left and all of them free |
| Theorems.WhatRunsDo | ee/transfer_accept.go:847-861 | an acceptance starts only of an open offer, in its dates, of the posted bundle, for the posting account; how it may finish; and only a site moved or seen with the account becomes done |
| Theorems.WhenRunsTake | ee/transfer_accept.go:847-861 | when each step of a run takes effect: the start iff open, in its dates and the posted bundle; a move iff the site is in the bundle, the sender's and not locked; done iff the run knows it; the end iff every site is done, or given up |
| Theorems.WhatSitesDo | internal/store/ownership.go:94-150 | what anybody's steps on a site change: it is made once, may go, is adopted only while it is nobody's and not locked |
| Theorems.WhatClaimsDo | ee/transfer_accept.go:92-100 | a claim is got iff nobody holds the offer, and an accept's only by somebody else at the address it was made to |
| Theorems.WhatPlansDo | ee/transfer_send.go:723-778 | the plan a creation starts with |
| Offers.EditBundle | ee/transfer_send.go:892-906 | the bundle after an edit, computed in place by the two loops |
| Offers.BundleAfterElems | ee/transfer_send.go:892-906 | that bundle is what was not removed and what was added, each once |
| Interference.EnvKeepsOffer | ee/transfer_accept.go:826-835 | between two calls of a claimed run, nobody changes its offer, moves for it, or gives one of its sites another owner |
| Interference.OthersHappen | ee/transfer_accept.go:92-100 | and everything else that others do between two calls happens |
| Progress.MoveGoes | internal/store/ownership.go:94-150 | a `TransferSite` of a run changes one owner, from the sender to the recipient, never twice |
| AcceptCheck.LimitsCheck | ee/limitscheck.go:76-188 | the lines of the check: sharing, the bundle's totals, each site's; unknown when the plan or a site is |
| AcceptCheck.CheckBundle | ee/limitscheck.go:104-139 | the totals the loop accumulates are the sum over the bundle and over every site the account owns |
| AcceptCheck.CheckSites | ee/limitscheck.go:141-188 | each site's lines, only where its tier limits it |
| AcceptCheck.LimitsMean | ee/limitscheck.go:52-188 | the check passes iff the account is there, its tier shares, and the numbers fit: sites, services, and each site's bytes, files, moving domains and forms |
| AcceptCheck.LimitsKnown | ee/limitscheck.go:76-103 | it has no answer iff the plan is not known, or a site is gone; without tiers it passes iff the account is there |
| AcceptCheck.WhatClearMeans | ee/transfer_accept.go:225-272 | the re-check has no objection iff both accounts are live on plans that share, nothing pauses the offer, every site is the sender's and no other of its sites shares a host, and the limits' lines pass |
| AcceptCheck.WhatRefusalsMean | ee/transfer_accept.go:225-272 | each other answer, iff: unknown, paused, gone, host conflict, the plan, the limits, in that order |
| AcceptCheck.NoNewConflict | ee/transfer_accept.go:252-258 | after part of the bundle moved, the rest has no host conflict the whole lacked |
| AcceptCheck.SitesConserved | ee/limitscheck.go:104-116 | owned, moved and remaining sites add up to the first check's total |
| AcceptCheck.ServicesTotal | ee/limitscheck.go:118-139 | and so do the container services |
| AcceptCheck.StillClear | ee/transfer_accept.go:394-407 | partial progress never makes the re-check refuse what the first check let through |
| Calls.LogDecides | ee/transfer_accept.go:345-438 | where the log of a run's calls starts and what is in it fixes the store and the markers, whatever everybody else does: nothing happens outside it |
| Calls.LeadsReaches | ee/transfer_accept.go:345-438 | every run of these calls is a run of the hand-over machine |
| Calls.FactsAre | ee/transfer_accept.go:225-272 | a check reads the owners, the locks and the recipient's markers as they are when it is made |
| Completion.Server.RecordMoved | ee/transfer_accept.go:440-462 | what is the recipient's is recorded, the rest is exactly what is left to do, and none of it is the recipient's but sites whose owner read failed, as the log shows |
| Completion.Server.MoveSite | ee/transfer_accept.go:517-551 | one site moves or none, and only after it was read and the recipient's marker linked; once TransferSite answered, the result has the password of that call and no longer lists the site, even when recording it failed |
| Completion.Server.MoveRest | ee/transfer_accept.go:409-419 | the sites reported as moved are those that moved, in order, each with the password its call answered with, and at most one more, moved by a call that answered with an error |
| Completion.Server.Settle | ee/transfer_accept.go:379-407 | at most two passes; the run goes on only over a clear check that its log shows, and leaves the rest only over a check that objected, the second if a site was no longer the sender's, or a recipient that is gone |
| Completion.Server.RunAccepting | ee/transfer_accept.go:345-438 | complete means every site done, ended means the rest stays and none of it is the recipient's; sites move only after a clear check, the moves are those reported, the copy is at most one unanswered write behind the store, no stop leaves more to do, and there is a call that halted it; every site that moved has the recipient's marker, only the bundle's markers change, and undisturbed what became done has no marker of the sender |
| Completion.Server.CompleteAccepting | ee/transfer_accept.go:334-344 | whatever fails, exactly the sites in `gone` moved since the claim, only after a clear check of them, as reported, and the claim is released; an undisturbed call makes the offer final; an acceptance whose check was clear, with only its own moves since, is completed whole wherever it had stopped; the markers of the sites are handed over with them |
| Completion.Server.FinishAccepting | ee/ownership_loop.go:197-232 | a step leaves no claim of its own; an undisturbed one leaves no offer accepting but those whose claim somebody else held before it and holds; every listed offer is tried, unless its account's read fails |
| Completion.Server.Ticks | ee/ownership_loop.go:126-159 | the ticks leave no claim of their own; with the faults over when the last one starts, every accepting offer is final but those whose claim somebody else held then |
| AcceptPage.Recheck | ee/transfer_accept.go:836-845 | under any faults, the accept goes ahead iff the check could be made and was clear, and refuses what it refuses; a host conflict also pauses the offer, if it is open |
| AcceptPage.Commit | ee/transfer_accept.go:848-873 | under any faults, the one change that decides every race happens iff the offer is open, in its dates and the posted bundle when the call reaches it, and is answered; and why not is told: not open, changed, or unavailable |
| AcceptPage.Accept | ee/transfer_accept.go:813-885 | whatever fails, a page comes only of an acceptance this call started after a clear check, agrees with the stored record but for an unanswered write, and lists the moved sites with the passwords TransferSite answered with, but for at most one whose answer was an error; any other answer moved nothing, and no claim is left; undisturbed and with a clear check, every posted site is shown with its password; every moved site has the account's marker, and undisturbed none has the sender's |
| AcceptPage.Render | ee/transfer_accept.go:1007-1046 | the page partitions the bundle, and shows a password for exactly the sites this run moved, the right one |
| Loop.ExpireOffers | ee/ownership_loop.go:234-263 | undisturbed, exactly the open and paused offers past their date end, as expired |
| Loop.ReopenPaused | ee/ownership_loop.go:265-308 | undisturbed, exactly the paused offers in their dates that nothing pauses open again |
| Loop.ReopensIs | ee/ownership_loop.go:265-308 | a paused offer is reopened iff it is in its date, its sender is there on a plan that shares, nothing of it is suspended or locked, and no other site of the sender shares a host |
| Loop.Tick | ee/ownership_loop.go:126-142 | a tick leaves no claim of its own; an undisturbed one leaves no offer accepting but those whose claim somebody else held before, none lapsed, and none paused that nothing pauses by the owners and locks it leaves |
| Loop.LoopAndAcceptAgree | ee/transfer_accept.go:153-205 | what the loop reopens the accept does not refuse for a pause or a host; what it leaves paused, the accept would refuse |
| Replace.OpenOffersOf | ee/transfer_send.go:234-252 | exactly the offers, not final, that hold one of the sites, each once, but for the one named |
| Replace.PlanReplace | ee/transfer_send.go:315-327 | the offers to replace are all the sender's and editable, or there is no plan |
| Replace.CreateOffer | ee/transfer_send.go:723-778 | under any faults: the new offer alone holds its sites and every replaced one is cancelled, iff every call worked, every replaced offer was still the sender's to change and no other holds a site; otherwise every offer is exactly as before but the cancelled ones whose own rollback call failed; the new record is the one that was asked for |
| Replace.Restore | ee/transfer_send.go:727-734 | every cancelled offer gets the state it had, but exactly those whose own call failed |
| Replace.PutBackRestores | ee/transfer_send.go:727-734 | with everybody else acting in between: a replaced offer is put back exactly as it was, unless it was pruned or one of its sites is in another open offer by then |
| HostClosure.Listed | ee/transfer_send.go:213-224 | each conflicting site once |
| HostClosure.Post | ee/transfer_send.go:284-311 | which answer a posted bundle gets, and what "add them to the bundle" posts |
| HostClosure.ClosureIsLeast | ee/transfer_send.go:199-232 | adding the conflicts again and again ends in the least bundle closed under shared hosts |
| HostClosure.AddUntilItFits | ee/transfer_send.go:797-805 | someone who keeps adding what is asked for ends with that bundle, iff it fits 50 and is all theirs and unlocked |
| HostClosure.RepostAddsTheConflicts | ee/transfer_send.go:908-930 | re-posting an edit yields the edited bundle and the conflicts |
| HostClosure.ClosedKeepsHostsWhole | ee/transfer_accept.go:248-258 | handing a bundle over keeps one owner per host iff it is closed |
| Reconcile.Index.Candidate | ee/ownership_loop.go:544-562 | from the fresh read on, the marker goes iff it is stray: no owner's, not held by an accepting offer, not of an ownerless site; nothing else changes |
| Reconcile.Index.Sweep | ee/ownership_loop.go:527-564 | the verdict on each marker of an account, and what the pass then takes for linked |
| Reconcile.Index.Reconcile | ee/ownership_loop.go:524-582 | whatever happens meanwhile, the markers change by what others do and the logged calls alone, and each of these unlinks a stray marker, past the grace when its account's were listed, or links an owner's of a listed account; an undisturbed pass leaves exactly the markers of its verdict and those the walk names, however partial the walk |
| Reconcile.WholePass | ee/ownership_loop.go:516-523 | with a whole walk: the owned pairs, and those young, held or on an ownerless site |
| Tags.AddInUse | ee/dashtags.go:101-107 | the first spelling of each key in use |
| Tags.InUseKeys | ee/tagsmanage.go:91-106 | the keys in use are those some site carries |
| Tags.LowerIs | internal/store/tags.go:20-27 | the key of a tag has a to z for A to Z, and nothing else changed |
| Tags.InGroupIs | ee/account/tags.go:102-116 | a tag is in the group its settings name, if that exists |
| TagFilter.Facets | ee/tagfilter.go:142-186 | one facet per group chosen whole or in part, with exactly its chosen tags, and one per ungrouped tag |
| TagFilter.Matches | ee/tagfilter.go:188-222 | the facet form decides the declarative filter: whole groups hit, partly chosen groups hit by a chosen tag, ungrouped tags there |
| TagFilter.ApplyTags | ee/dashtags.go:564-590 | the rows shown are those that pass, in their order |
| TagFilter.Parse | ee/tagfilter.go:32-64 | unknown tags and groups are dropped, and untagged excludes everything else |
| TagFilter.RoundTrip | ee/tagfilter.go:77-91 | parsing a selection's query gives it back iff it is one the pages can hold, and always gives such a one |
| TagFilter.ClicksStayProper | ee/tagfilter.go:104-132 | no click leaves those selections |
| TagFilter.WhatClicksDo | ee/tagfilter.go:104-132 | a click changes just its tag or group, a second takes it back; a group chosen asks for any tag of it |
| TagFilter.WholeIsAllItsTags | ee/tagfilter.go:203-209 | over rows whose tags are listed, a whole group passes what all its listed tags pass iff it lists one or the rest of the selection keeps the row out |
| TagFilter.EmptyGroup | ee/tagfilter.go:203-209 | a group that lists no tag: whole, nothing passes; spelled out, everything does |
| TagFilter.ChipToggle | ee/dashtags.go:273-287 | the selection a chip links to, as the toggles of the loop leave it |
| TagFilter.ChipKeepsTheOthers | ee/dashtags.go:273-287 | in a whole group, a chip keeps exactly the rows with another listed tag of it iff it lists another or the rest keeps the row out |
| TagFilter.ListBlocks | ee/dashtags.go:221-239 | every tag in use or selected is listed once, under its own group |
| TagsManage.RenameIn | ee/tagsmanage.go:565-589 | the list the loop builds, and whether a spelling changed |
| TagsManage.RemoveFrom | ee/tagsmanage.go:591-600 | the list without the tag, and whether it was there |
| TagsManage.RenamedIs | ee/tagsmanage.go:565-589 | the old key gives way to the new one, every other tag stays, and no list grows |
| TagsManage.EntryAfterRename | ee/tagsmanage.go:617-646 | the existing entry's name, group and colour win and are filled from the renamed one; no other entry changes |
| TagsManage.DeadGroupGoes | ee/tagsmanage.go:617-646 | a group that is gone is not carried over |
| TagsManage.RenameKeepsValid | ee/account/tags.go:118-175 | a rename leaves a registry the store accepts |
| TagsManage.RenameKeepsTheFilter | ee/tagsmanage.go:565-646 | for a rename that is no merge, every site passes the renamed filter iff it passed before, for every selection |
| TagsManage.MergeIsUnion | ee/tagsmanage.go:673-731 | for a merge, the sites with the target alone are those that had either tag, and none has the old one |
| TagsAccount.TargetAgain | ee/tagsmanage.go:691-714 | after a partial rename to the spelling of the whole account, that spelling stays, though the rename may be a merge now |
| TagsAccount.RenameAgain | ee/tagsmanage.go:814-826 | whatever sites a rename skipped and whether or not its registry write was lost, the same again reaches what one undisturbed rename reaches |
| TagsAccount.RenameAgainExactlyIf | ee/sharing.go:287-303 | with sites that could not be listed the first time, the same again reaches one undisturbed rename iff both listings give the same spelling or the first rename wrote its own nowhere |
| TagsAccount.RenameAgainUpToCase | ee/sharing.go:287-303 | in any case, the same again reaches the same tags, up to the case of the new one |
| TagsAccount.CaseMayDiffer | ee/sharing.go:287-303 | a run where that case differs |
| TagsAccount.DeleteAgain | ee/tagsmanage.go:735-772 | a delete done again reaches what one undisturbed delete reaches, even if some sites could not be listed the first time |
| TagsAccount.Store.RetagSites | ee/tagsmanage.go:523-563 | exactly the sites that carry the tag and were not skipped change, and the skipped are reported |
| TagsAccount.Store.Rename | ee/tagsmanage.go:673-731 | the account after a rename; a merge asks first and an unknown tag changes nothing |
| TagsAccount.Store.Delete | ee/tagsmanage.go:735-772 | the account after a delete |
| Deletion.Server.LinkOwned | ee/ownership_delete.go:36-67 | every site the account owns has a marker then; it goes on exactly while every call works |
| Deletion.Server.LockedSites | ee/dashboard.go:462-485 | the Info of every owned site is asked for, of no site without its marker, and a locked one is missed iff that read failed |
| Deletion.Server.EndAllShares | ee/ownership_delete.go:88-130 | exactly this account's entries go, on marked sites of others that are not locked |
| Deletion.Server.EndAllOffers | ee/ownership_delete.go:192-241 | the offers from the account and to its address end, each once |
| Deletion.Server.EndAllInvites | ee/ownership_delete.go:242-265 | and the invitations |
| Deletion.Server.Before | ee/ownership_delete.go:77-142 | the first half, harmless wherever it stops |
| Deletion.Server.DeleteSites | ee/account/store.go:342-384 | the sites its markers list, each only while it is the account's, then the account; a listing that fails lists nothing and stops nothing |
| Deletion.Server.DeleteAccount | ee/dashboard.go:600-618 | refused iff a locked site of it was read; failed iff some call failed or a site was locked by then; what changed is what the logged calls that worked do, and at every stop nothing of anybody else's is lost; done means that every share, offer and invitation was asked for, all but the sites is as a deletion leaves it, and no site names the account iff the last listing worked or it had none |
| Deletion.DoneWithASiteLeft | ee/account/store.go:347-354 | with only that listing failing, the deletion says it is done and the site stays |
| Deletion.DeletionIsComplete | ee/ownership_delete.go:13-32 | no site names the account, no open record is from it or to its address, its entries left are on locked sites, everybody else's entries are as they were, and so are the lists of sites it had no share marker for |
| Deletion.HowRecordsEnd | ee/ownership_delete.go:267-274 | its own records are cancelled, those made to it expire, others and those being accepted stay |
| Deletion.HowInvitesEnd | ee/ownership_delete.go:267-274 | so do invitations, those open |
| TierSync.Server.OwnedSites | ee/sharing.go:251-285 | the sites resolved: gone or the account's; an unreadable one is reported |
| TierSync.Server.RestampSites | ee/provider.go:727-786 | every resolved site is tried, gone ones lose their marker and are no failure |
| TierSync.Server.SyncTier | ee/provider.go:674-725 | a pass leaves the account as specified; an unknown tier changes nothing |
| TierSync.WhichTier | ee/provider.go:684-706 | which tier a pass works to, and what that leaves: a failed lookup changes nothing; a configured tier that PayGate names is it; else a stored tier stays, and an account with none goes to the default iff it is configured |
| TierSync.StoredOnlyWhenStamped | ee/provider.go:707-724 | a tier is stored only by a pass that stamped it on every site with none unreadable |
| TierSync.CleanPassSettles | ee/provider.go:738-744 | an undisturbed pass settles the account, on the default tier too, whatever markers dangle, and the next is a no-op |
| TierSync.NoRetryLost | ee/provider.go:707-716 | over any passes with the plan at one tier, the account is stored on it only with every site on it, and one clean pass gets it there |
| TierSync.ConsistentExactlyIf | ee/provider.go:704-724 | a pass keeps every site on the stored tier iff it does not stamp another tier and then fail |
| TierSync.StuckAfterHalf | ee/provider.go:704-706 | after half a pass and the plan going back, no number of clean passes repairs the site |
| Invitations.OnlyOneProceeds | ee/share.go:363-373 | of any number of racing accepts at most one is past the deciding change or got the share |
| Invitations.AcceptedExactlyIfWritten | ee/share.go:447-522 | with none under way and no undo lost, the invitation is accepted iff exactly one accept wrote the admin |
| Invitations.OnlyTheWriteLists | ee/share.go:459-495 | a run changes the admins only by its one write, while it alone holds the invitation and the inviter owns the unlocked site; everybody else stays listed, and the account is |
| Invitations.RefusedListsNobody | ee/share.go:496-522 | over any run of everybody, an accept that did not get the share changed the admins at none of its steps |
| Invitations.MarkLeftExactlyIf | ee/share.go:459-466 | the undo's step leaves a marker to an account that is not listed iff the site is gone or the step failed; `Invitations.Server.Accept` says it of every accept that is undone |
| Invitations.StrayMark | ee/share.go:459-475 | a run with no failing write that leaves one |
| Invitations.JoinedIs | ee/share.go:492-495 | everybody else stays listed, and the account is, once, at the end |
| Invitations.OthersHappen | ee/share.go:363-373 | everything others do between two calls happens |
| Invitations.Server.Undo | ee/share.go:459-475 | exactly these calls, each with its effect unless it fails, whatever everybody else does; the first leaves a marker, not listed, iff it finds one and the site is gone or the call fails; after the second the invitation is open |
| Invitations.Server.Join | ee/share.go:447-522 | the account joins, or what was linked is undone, and the invitation is withdrawn after that iff the write was made and found the site gone or not the inviter's; alone and with no call of the undo failing, a refusal leaves the admins as they were, no new stray marker, and the invitation open but for that |
| Invitations.Server.Accept | ee/share.go:382-527 | the answer says joined iff this run's write made it so, and only with both plans sharing; otherwise the run is over, after every marker it linked came an undo, which leaves a marker, not listed, iff it finds one and the site is gone or the call fails, whatever others do; and a withdrawal iff the write found the site gone or not the inviter's; alone with no undo lost the admins are as before and the invitation is expired if it had lapsed, cancelled if the site was gone or sold, else open; with nothing failing, the answer is the first objection, or the write's |
| Purge.LockHolds | ee/provenance.go:114-157 | stopping early loses nothing of what the walks can see: an error or an open case iff there is one, else whether anything is locked |
| Purge.HasEntryBefore | ee/provenance.go:159-172 | whether the purge would drop an entry |
| Purge.Store.Drop | internal/provenance/provenance.go:272-299 | the entries before the cutoff go, or none when the write fails |
| Purge.Store.PurgeAll | ee/provenance.go:62-112 | the shortcuts leave every account's log as asking for all holds first would |
| Purge.WhatThePolicyDrops | ee/provenance.go:62-67 | an entry goes iff there is no error, no open case is seen, it is old enough, and past the holds' retention if anything seen holds the account |
| Purge.OpenCaseDropped | ee/sharing.go:298-300 | an entry of an account under an open case is dropped when that site cannot be read |
| Purge.OpenCaseKeepsExactlyIf | ee/provenance.go:114-157 | no entry of such an account is ever dropped iff one open case can be read or the purge stops for another reason |
| Purge.HoldKeepsExactlyIf | ee/provenance.go:99-105 | a locked site keeps the log back to the holds' retention iff one lock can be read |
| Consent.Cache.Cached | ee/mcpconsent.go:161-173 | a hit is backed by an answer kept less than the TTL before; an expired entry goes |
| Consent.Cache.Remember | ee/mcpconsent.go:175-196 | never more than the bound, and a live entry goes only when live entries alone fill the cache |
| Consent.Cache.Serve | ee/mcpconsent.go:161-196 | over any interleaving of requests, every hit is backed |
| Consent.Cache.Complete | ee/mcpconsent.go:88-159 | true only if backed or just answered, always if just answered complete, and exactly a complete answer is remembered |
| Consent.AnswerAge | ee/mcpconsent.go:175-196 | every hit an entry can give is younger than a limit iff some answer was at most the limit less the TTL old when it was remembered |
| Consent.SlowAnswer | ee/mcpconsent.go:175-196 | the cache serves an answer that took 3 seconds 601 seconds after it was given |

## Left out

- Completion.Server.RecordMoved: the order of the sites (sorted by view id) is any order here; no property depends on it.
- Completion.Server.MoveSite: former admins' share markers and tags, and the account logs, are calls that change nothing modelled.
- Completion.Server.ReadFacts: what one check reads is one call; others act before and after it, not inside it.
- Completion.Server.Ticks: the ticks are its argument, and the undisturbed end of them is one in which nobody else acts; timers, panics and the log's throttling are not modelled.
- Replace.CreateOffer: nobody acts in between here; `Replace.PutBackRestores` says what everybody else can change about it.
- HostClosure.Post: dates, the address, the plan's sharing and the daily limit of a posted offer.
- Reconcile.Index.Candidate: the read of the site, the look for an accepting offer and the unlink are one step, as its callers rely on.
- TagsAccount.Store.RetagSites: the store also sorts the list it writes, and the count of changed sites only feeds the log.
- Tags.AddInUse: upper and lower case are those of ASCII letters.
- TagFilter.Facets: the order of the facets, which only the summary line shows, and the summary itself.
- Deletion.Server.DeleteAccount: nobody else acts meanwhile; the markers and tags of the deleted sites' admins are left to the reconciliation.
- TierSync.Server.SyncTier: a site's stamp is the tier it was stamped with; expiry arithmetic and the other routes that write a tier are not modelled.
- Invitations.Server.Accept: one invitation to one site; end dates, mails and logs are left out. What a refusal leaves as a whole is stated with nobody else acting, as others may change anything of it; with others it is told call by call.
- The share markers' reconciliation, the lapse of invitations and admins, the deletion of ended records by age: the same shape as what is here.
- Mails, notification dates, the daily limit on offers, dashboards and forms: they change no state modelled here.
- Sign-in, tokens, billing, DNS proofs and the site runtime: their answers are inputs.
