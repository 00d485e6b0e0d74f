# msggw, verified

A Dafny model of the gateway between Google Messages (and other transports) and Mattermost, with proofs about whole
runs of it. `dafny verify dfyconfig.toml` checks everything.

Four parts are modelled.

**The bridges.** `Storage` is the tables and the statements on them, `Mattermost` the server's posts and reactions and
the filter on events coming back, `Bridge` the phone bridge and `Corebridge` its generic twin. Each handler exists
twice: as a function from worlds to worlds, and as a method of a class that carries it out on the shared database and
server and is proved to do just that. Everything that can fail or answer anything (the phone, the REST calls, the
statements) is a *fate* handed to the handler. `Sends` and `Arrivals` say what one event comes to, without a word of how
the handlers work it out: when a person's post is sent, to whom, saying and quoting what; and what is posted, mapped and
shown for a message. `Runs` puts all bridges over one database and one server; a restart changes nothing that is kept,
and a reload is nothing but other settings in later events. On runs: at most one post per message (`AtMostOnce`), every
send in one place (`Echoes`) and never posted back (`EchoQueue`, with queues in between), no loops and one recipient
(`Isolation`), messages and quotes within their conversation (`Placement`), the one reaction of the stored status
(`Reactions`). Where these stop, `Collisions`, `Comebacks` and `Reactions` walk through runs that break them.
`Attachments` is the text and files of a post. `ConversationLocks` is the interleaving of handlers below one tenant's
bridge.

**Reloading.** `Daemon` is the main loop, its generations, the handlers of the rules server and whoever else writes the
configuration file, as a machine that interleaves them; `Reloads` proves what holds in every reachable state; `MainLoop`
is the loop as it is written, proved to be a run of that machine, and `Gateway` joins the machine to the bridges' runs.
`Config` is validation and the in-place change of the file, `RulesServer` a push up to where it asks for a reload,
`Pairing` the table of remote pairings.

**Routing.** `Routing` has the phone, Discord and generic routers, compiled and declarative, `Conversations` the
titles they look at, `PhoneNumbers` what makes two numbers the same.

**Small cores.** `EventQueue`, `Rebind`, `DestinationCache`.

What is assumed of the outside is stated in predicates of its own, such as `Honest`, `HonestThreads`, `Genuine` and
`DeliveredOnce`: identifiers made up by the server, the phone and the daemon are fresh; a fetched conversation is the
one asked for; a message does not move to another conversation; only the phone a message was sent through echoes it; an
answer is in its root's channel.

Some promises turned out to hold only under a condition, which a lemma names exactly, most often beside one with an
input that breaks the promise: backfill overlapping its trigger, a user named like the Discord bridge, users sharing a
channel outside threads, rules with a phone entry that has no number, punctuation seen by name patterns, placeholders
directly before a digit, and user names with commas in destinations. Where comments and code differ, the code is
followed: `NormalizePhone` keeps a lone plus, so the router accepts a phone entry without any digit although its error
speaks of digits.

## Model

| member | source | states |
|---|---|---|
| AtMostOnce.PostedAtMostOnce | src/internal/bridge/inbound.go:24-137 | over every run of new messages, replays, echoes, status events, failing calls and restarts, the posts made for a message of a tenant never exceed one if it is mapped plus its posts whose mapping was not saved; the message being handled must not be in the window its own backfill fetched |
| AtMostOnce.NeverPostedTwice | src/internal/storage/messages.go:56-60 | without a failed save a replay, however late, never posts a message twice, and a message with no mapping has no post |
| AtMostOnce.PostedTwiceExactlyOnOverlap | src/internal/bridge/conversations.go:141-169 | when every call succeeds a message never seen is posted once, and twice exactly when its conversation is new, backfill is on and the fetched window holds it with content: the handler does not look again after the backfill |
| Comebacks.OverlapPostsTwice | src/internal/bridge/inbound.go:71-78 | a concrete run of one event, every call succeeding, that posts its message twice and maps it once |
| Echoes.SendsAreConserved | src/internal/storage/messages.go:124-179 | in every reachable state a temporary identifier was recorded at most once, and exactly as often as it was acknowledged or given up plus once while its row is there |
| EchoQueue.RecordedSendsAreNotPostedBack | src/internal/bridge/outbound.go:47-69 | whatever arrives while a send is under way, including its own echo, a recorded send is waiting under its own post, mapped to the human's post, given up or taken with a failed save; its message is posted back only in the last two cases or when its echo was lost, to a restart or to a failed look-up of the row |
| Comebacks.GivenUpComesBack | src/internal/bridge/bridge.go:194-203 | a concrete run in which a recorded send is posted back because it was given up, and for no other reason |
| Comebacks.UnmappedComesBack | src/internal/bridge/inbound.go:28-38 | a concrete run in which it is posted back because its mapping could not be stored, and for no other reason |
| Comebacks.UnheardComesBack | src/internal/bridge/bridge.go:80-119 | a concrete run in which it is posted back because its echo was queued at a restart and the message came again without its temporary identifier, and for no other reason |
| EchoQueue.PostedExactlyWhenForgotten | src/internal/bridge/inbound.go:24-83 | when every call succeeds, an event with content is posted exactly when neither a pending row nor a mapping knows its message |
| Isolation.OneSendToTheRightPerson | src/internal/bridge/outbound.go:80-97 | with every bridge in thread mode and no phone user bearing a transport's name, a human post fanned out to all bridges is claimed at most once in a whole run, for the conversation whose thread it is in |
| Isolation.OneRecipientUnlessBothListen | src/internal/bridge/outbound.go:80-97 | in any mixture of layouts, changing over time, a human post is claimed at most once unless two tenants listen in one channel, at the same time or one after the other, one of them at least not in threads; names are not shared between phones and transports |
| Isolation.OneRecipientInAnyLayout | src/internal/bridge/outbound.go:80-97 | in particular it is claimed at most once as long as tenants with conversations in one channel keep to threads, and in any case only for a conversation in its channel |
| Collisions.ContestedExactly | src/internal/storage/conversations.go:122-152 | from any state with tables and posts in order, the next post can be taken by bridges of two tenants if and only if two tenants listen in one channel: one of them as its sole conversation there without threads, the other so too or with a thread |
| Collisions.ContestedRunsClaimTwice | src/internal/bridge/outbound.go:91-97 | every run that reaches such a state extends to one in which a post was claimed twice |
| Collisions.SharedChannelClaimsTwice | src/internal/storage/conversations.go:132-152 | such states are reached: a concrete run for any two users with conversations in one channel, when neither is in threads and when only one is, in which one post is claimed twice |
| Collisions.IsolationExactly | src/cmd/discord.go:48-56 | two sends for one post can happen in thread mode if and only if a phone user bears a transport bridge's name |
| Collisions.SharedNameClaimsTwice | src/cmd/discord.go:48-56 | a concrete run in thread mode in which a phone user named like the transport bridge makes one post be claimed twice |
| Isolation.OwnPostsAreInert | src/internal/mattermost/events.go:168-200 | any post a bridge made in any run, fed back to any bridge under any bot account, changes nothing at all |
| Isolation.SendsNeverExceedHumanPosts | src/internal/bridge/outbound.go:23-76 | in every run the sends of a tenant's bridges never exceed the posts written by people that were handed to them |
| Placement.MessagesStayInTheirConversation | src/internal/bridge/inbound.go:96-137 | in every reachable state a message's post is in the channel of the message's conversation, and in its thread when a bridge made it; a person's post only stands for a message sent out |
| Placement.QuotesStayInTheConversation | src/internal/bridge/outbound.go:99-117 | a post never quotes a message of another conversation than the one it is sent to, and in thread mode quotes nothing at all; the quoted message is the one its root post stands for |
| Sends.EverySendIsAsWritten | src/internal/bridge/outbound.go:23-117 | after any run, on both bridges, a send says what the person wrote, without the white space around it and with its files, in the conversation whose thread or sole channel the post is in; it quotes exactly when the look-up worked, the post answers something other than the conversation's root and a message stands for what it answers; the quoted message is one its root stands for, and of the same conversation |
| Sends.SentExactly | src/internal/bridge/outbound.go:23-60 | a bridge sends a post exactly when a person wrote it, it says something, it is meant for a conversation and every call works; it is on record as refused exactly when only the send itself failed; a post that is not tried changes nothing |
| Sends.SentAsWritten | src/internal/bridge/outbound.go:47-69 | a send leaves one action and what is kept of it: for the phone the row that waits for the echo, for a transport the mapping to the person's post |
| Sends.RefusedIsTold | src/internal/bridge/outbound.go:151-175 | a failed send puts a notice of the bot's in the post's channel and thread, for the phone the reaction `warning` on the post when states are shown, and changes nothing else |
| Runs.RoutingIsSticky | src/internal/bridge/conversations.go:86-134 | from the moment it is stored, a conversation keeps its channel and root post through every later event of every run, whatever the settings become, and posts do not change |
| Runs.RunStored | src/internal/storage/conversations.go:64-114 | in every reachable state each stored row refers to a post and a conversation that exist, thread roots carry the bridge's marker, and non-empty root posts are pairwise distinct across tenants and conversations |
| Reactions.ReactionMatchesStatus | src/internal/bridge/delivery.go:30-80 | after any run in which reaction calls succeed and no post was claimed twice, in any layout, a human post whose send was acknowledged carries exactly the reaction of its stored status, and any other bridged post at most that one |
| Reactions.ReactionMatchesStatusInAnyLayout | src/internal/bridge/delivery.go:30-80 | the same from what can be seen beforehand: tenants that share a channel keep to threads, and names are not shared |
| Reactions.AcknowledgedPostsSayTheirStatus | src/internal/bridge/delivery.go:53-105 | with the reactions by name: the only one of the bot's on an acknowledged post is `warning` for a failure, else `eyes` when displayed, `white_check_mark` when delivered, `hourglass_flowing_sand` while pending, `envelope` for any other outgoing status, and none otherwise |
| Reactions.ContestedRunsShowTwo | src/internal/bridge/delivery.go:53-80 | every run that reaches a state contested between two phones extends, every reaction call succeeding, to one in which an acknowledged post carries another reaction than that of its status, for any account and any two statuses shown differently |
| Reactions.ClaimedTwiceShowsTwo | src/internal/bridge/delivery.go:53-80 | such a run from the beginning, for any two users, the first in threads or not |
| Echoes.ReplayIsInert | src/internal/bridge/inbound.go:24-92 | handling an event twice is handling it once: if nothing failed the first time, the replay changes no post, mapping, pending row or reaction, whatever fails then |
| Arrivals.EveryNewMessageIsPosted | src/internal/bridge/inbound.go:47-137 | after any run, when every call works, a message that is not awaited, not mapped, not marked old and not empty has a new post of the bot's in its conversation's channel and thread, with its files and all it says, and is mapped to it with its status |
| Arrivals.OldAndEmptyAreNotPosted | src/internal/bridge/inbound.go:47-60 | a message marked old, or with nothing to say, changes nothing, whatever the calls answer, unless it is awaited or mapped |
| Arrivals.ArrivalIsPosted | src/internal/corebridge/inbound.go:27-95 | the same on the generic bridge, where a mapped message changes nothing and there is no status |
| Arrivals.BackfillPostsOldestFirst | src/internal/bridge/conversations.go:141-169 | a backfill in which every call works posts every message of the window that says something, whole, and of two messages the older first |
| Arrivals.EchoMapsToThePost | src/internal/bridge/inbound.go:25-45 | an awaited echo takes its row, maps the message to the person's post as sent out, posts nothing, and shows the first status |
| Arrivals.StatusIsShown | src/internal/bridge/delivery.go:30-80 | a new status of a mapped message replaces the old one in the mapping, and its reaction the old reaction when states are shown |
| Arrivals.ConversationIsOpened | src/internal/bridge/conversations.go:40-84 | when every call works a new conversation is stored as fetched, in the channel it was routed to, with a header post as its root exactly when threads are used |
| Arrivals.ConversationFollowsThePhone | src/internal/bridge/conversations.go:93-134 | a stored conversation takes the phone's title and kind, and its sender and participants when there are any; channel, root and last activity stay, and so does everything else |
| Attachments.EveryAttachmentAccounted | src/internal/bridge/inbound.go:139-230 | for both bridges, every attachment of a message is among the posted files, or the text of the post contains a note saying what became of it |
| Attachments.FormatSaysAll | src/internal/bridge/inbound.go:193-230 | the text of a post begins with its head, then come the subject, the message's text and every note, each as lines of its own up to trailing newlines, in this order |
| Attachments.InTurn | src/internal/bridge/inbound.go:145-175 | what an attachment contributes, a file or a note, stands right after what those before it contributed |
| Attachments.Format | src/internal/bridge/inbound.go:193-230 | the loop writes the head, the subject, the text and every note on a line of its own, without newlines at the end |
| Bridge.PhoneBridge.TransferAttachments | src/internal/bridge/inbound.go:145-175 | the loop returns the transferred files and the notes, each in the order of the attachments |
| Bridge.PhoneBridge.PostOne | src/internal/bridge/inbound.go:96-137 | posts a message with its files and notes and maps it, as the specification that the run theorems are about says, and reports whether both worked |
| Bridge.PhoneBridge.BackfillWindow | src/internal/bridge/conversations.go:156-167 | posts a window from its oldest message on and stops at the first that cannot be posted or mapped |
| Bridge.PhoneBridge.Ensure | src/internal/bridge/conversations.go:26-84 | returns the stored conversation, or opens, stores and backfills it, with nothing stored when any part fails |
| Bridge.PhoneBridge.HandleIncomingMessage | src/internal/bridge/inbound.go:24-92 | tells an echo, a status update, a replay and a new message apart and leaves database, server and journal in exactly the state the run theorems reason about, on every failure path too |
| Bridge.PhoneBridge.HandleConversationUpdate | src/internal/bridge/conversations.go:93-134 | a bridged conversation follows the phone's metadata, and one not bridged is not created |
| Bridge.ConversationForPost | src/internal/bridge/outbound.go:78-125 | finds the conversation of the thread, or the only one in the channel, or none; and the message the post quotes |
| Bridge.PhoneBridge.HandleOutgoingPost | src/internal/bridge/outbound.go:23-76 | sends a post to that conversation and records the send, or tells the sender it failed; posts elsewhere, blank ones and ones whose files cannot be fetched change nothing |
| Bridge.PhoneBridge.TellTheSender | src/internal/bridge/outbound.go:151-175 | a refused post gets the failure reaction, when reactions are on, and a notice in its own thread |
| Bridge.PhoneBridge.HandleStatusUpdate | src/internal/bridge/delivery.go:28-49 | stores a changed status and moves the reaction along; a repeated one stops there |
| Bridge.PhoneBridge.ShowStatus | src/internal/bridge/delivery.go:51-80 | removes the reaction of the old status and adds that of the new one unless they are the same |
| Bridge.PhoneBridge.PrunePendingOutbound | src/internal/bridge/bridge.go:194-203 | gives up exactly this tenant's rows as old as the cutoff |
| Corebridge.TransportBridge.Ensure | src/internal/corebridge/conversations.go:25-79 | the generic bridge's way to the stored conversation, without backfill |
| Corebridge.TransportBridge.TransferAttachments | src/internal/corebridge/inbound.go:97-133 | the loop returns the transferred files and the notes, each in the order of the attachments |
| Corebridge.TransportBridge.HandleIncomingMessage | src/internal/corebridge/inbound.go:27-95 | posts and maps a message with no mapping; the run theorems hold for these steps too |
| Corebridge.TransportBridge.HandleOutgoingPost | src/internal/corebridge/outbound.go:22-70 | sends a post and maps the identifier the transport answers with directly to the human's post, or reports the failure |
| Delivery.StatusEmoji | src/internal/bridge/delivery.go:82-105 | the whole table, by name and in the source's order of precedence: a state is shown if and only if it is an outgoing one, and as a failure if and only if it is one |
| Storage.Database.Save | src/internal/storage/messages.go:36-53 | inserts a mapping, or replaces all of it but its creation time |
| Storage.Database.GetByPost | src/internal/storage/messages.go:82-108 | answers some message the post stands for, and none only when there is none |
| Storage.Database.UpdateStatus | src/internal/storage/messages.go:110-122 | changes a stored status and reports whether it was news |
| Storage.Database.AddPending | src/internal/storage/messages.go:124-135 | records a send; a row already there keeps its tenant and age |
| Storage.Database.TakePending | src/internal/storage/messages.go:137-166 | returns the post of a temporary identifier and forgets it; the empty identifier finds nothing |
| Storage.Database.PrunePending | src/internal/storage/messages.go:168-179 | drops exactly the tenant's rows as old as the cutoff |
| Storage.Database.GetByRootPost | src/internal/storage/conversations.go:122-130 | finds a conversation by its thread; the empty root belongs to none |
| Storage.Database.GetSoleInChannel | src/internal/storage/conversations.go:132-152 | answers only when exactly one of the tenant's conversations is in the channel |
| Storage.Database.Touch | src/internal/storage/conversations.go:214-220 | changes nothing of a conversation but when it was last active |
| Mattermost.Client.CreatePost | src/internal/mattermost/posts.go:32-51 | the property loop stamps every post with the bridge's marker, whatever properties the caller gave, and the post gets a new identifier |
| Mattermost.OwnPostsNeverComeBack | src/internal/mattermost/events.go:166-219 | a post the daemon created is dropped on the way in under every bot account |
| ConversationLocks.LockTable.LockFor | src/internal/bridge/bridge.go:205-218 | everyone asking for one conversation gets the same mutex, and nobody else's |
| ConversationLocks.NoThreadIsOrphanedByARace | src/internal/bridge/conversations.go:26-80 | with any number of interleaved handlers nobody holds two conversation locks, at most one is inside per conversation, and the threads opened for it are exactly its stored row, its failed saves and the one being stored right now |
| Reloads.OneGenerationAtATime | src/cmd/daemon.go:112-231 | over every interleaving of reloads, pushes, shutdown, failed starts and rollbacks at most one generation is alive; each done channel is sent to once, when its generation exits, and received from at most once; the loop never waits on one already drained; after a failed start, or on return, nothing is alive |
| Reloads.AnsweredExactlyOnce | src/cmd/daemon.go:140-228 | every accepted request is answered exactly once, on every path, by the time the loop selects again or returns |
| Reloads.AnswersAreTruthful | src/cmd/daemon.go:160-228 | success means the generation just started got past its setup with the configuration loaded for this request, which is shared and becomes the loop's; an error means the previous configuration is still shared and is that of the generation the loop goes on with, past its setup too if it was started again, or that the daemon returns with nothing alive |
| Reloads.ConfigurationsAgree | src/cmd/daemon.go:118-126 | at the head of the loop its own configuration, the shared one and the current generation's are the same, and it loads |
| Reloads.RunsGoForward | src/cmd/daemon.go:209-228 | versions of the file are only added, and the shared configuration never goes back to an earlier one |
| Gateway.ReloadsAreOneRun | src/cmd/daemon.go:288-327 | over any interleaving of the reload protocol with the turns of the bridges, the turns are one honest run, so what is proved of those holds across reloads; a generation's turns come before those of every later one, and never can two generations take one |
| Reloads.PushesSerialise | src/cmd/rulesserver.go:98-172 | with anybody else writing anything to the file in between, every version a push wrote loads and replaces exactly one user's rules in the version right before it; a handler that answered 200 put its rules in a version no later than the one its reload loaded, which is no later than the shared one; one that answered 202 committed, and its reload was answered with an error |
| Reloads.PushesCommitTheirEdit | src/internal/config/mutate.go:106-116 | a push commits exactly its own edit of the file as it is at that moment, or nothing: nothing if the file no longer holds what was read |
| Reloads.OnlyOutsidersInterfere | src/cmd/rulesserver.go:122-135 | while a handler holds the mutex only a writer outside it changes the file |
| MainLoop.MainLoop.Run | src/cmd/daemon.go:126-231 | the imperative loop, with everybody else moving while it waits, only ever passes through states the protocol theorems are about, and stops only at the select, on return or on a channel with nothing in it |
| MainLoop.MainLoop.Turn | src/cmd/daemon.go:127-230 | one turn of the select is a run of the protocol's moves |
| MainLoop.MainLoop.Reload | src/cmd/daemon.go:140-148 | a configuration that does not load is answered with an error and leaves the generations and the loop's variables alone; otherwise the request comes to its own configuration swapped in and shared, or to an error with the previous one still the loop's and shared, and its one answer says which |
| MainLoop.MainLoop.Swap | src/cmd/daemon.go:150-228 | as far as it gets, it ends with the new configuration the loop's and shared and the request answered so, or with the previous one and an error; going on to select, it is with a generation started since |
| MainLoop.MainLoop.Revert | src/cmd/daemon.go:161-207 | the previous configuration stays the loop's and shared and the request is answered with an error; going on to select, it is with a generation started for it |
| MainLoop.MainLoop.WaitReady | src/cmd/daemon.go:234-253 | takes one value from one of the two channels and reports whether done is still to be received |
| RulesServer.Server.HandlePut | src/cmd/rulesserver.go:98-139 | computes, and leaves in the file, what the following two rows are about |
| RulesServer.PushesReplaceOneUsersRules | src/cmd/rulesserver.go:117-139 | an accepted push leaves a file that loads, with one user's rules replaced; any other leaves the file alone; it is refused as not found exactly when nobody bears the name, as unprocessable when the rules are invalid, and otherwise only when the file cannot be read or written, does not load or does not name the user |
| RulesServer.PushingIsTheProtocols | src/cmd/rulesserver.go:98-139 | the outcome, status and file are those of the handler's moves in the reload protocol |
| Config.ConfigFile.Mutate | src/internal/config/mutate.go:44-120 | on success every file operation worked, the file holds the changed configuration, which loads, and nobody else's writing was lost before the comparison; on failure it holds what it held, or what somebody else wrote; with no I/O failure and no other writer it fails only if the text, the change or the result is refused |
| Config.SetRulesTouchesOne | src/cmd/rulesserver.go:123-134 | a push replaces the rules of one user bearing the name, and no default, no other user and nothing else |
| Config.SetRules | src/cmd/rulesserver.go:123-134 | the loop over users makes that edit, or refuses when nobody bears the name |
| Config.ValidRulesKeepValidity | src/internal/config/config.go:338-379 | replacing one user's rules by valid ones keeps a configuration valid as a whole |
| Config.ThreadsByDefault | src/internal/config/config.go:152-157 | a user who says nothing about threads gets them, one who says keeps what was said, and nothing else changes |
| Config.Validate | src/internal/config/config.go:166-251 | reports a problem exactly when the configuration is invalid: users there, names given, distinct and without a slash, destinations and rules valid |
| Config.ValidateRules | src/internal/config/config.go:313-327 | reports a problem exactly when a default or a rule is invalid |
| Config.ValidateRuleList | src/internal/config/config.go:342-354 | reports a problem exactly when some rule is invalid |
| Pairing.PairingsHaveOneOwner | src/cmd/pairserver.go:54-198 | under any interleaving of starts, waits, sweeps and shutdown a pairing has an owner, exactly one, until it is closed or dropped, is handed to at most one waiter, is never swept once handed over and is closed at most once; a tick leaves exactly the entries whose time is not over, unchanged, and closes the connections of the others and no more |
| Pairing.PairServer.Insert | src/cmd/pairserver.go:135-145 | puts a pairing that was started into the table; it is the protocol's move |
| Pairing.PairServer.Take | src/cmd/pairserver.go:165-182 | a wait takes the entry out whoever asks, and only its own user gets it; it is the protocol's move |
| Pairing.PairServer.Sweep | src/cmd/pairserver.go:75-102 | closes and removes exactly the entries whose time is over, each once, and keeps the others; it is the protocol's move |
| Pairing.PairServer.SweepAll | src/cmd/pairserver.go:83-92 | shutdown closes and removes every entry; it is the protocol's move |
| Routing.GenericReplacesDiscord | src/internal/corebridge/routing.go:84-207 | for every Discord rule list and conversation the generic router on the translated rules fails to build exactly when Discord's own does, and otherwise picks the same destination and rule name |
| Routing.FirstApplicableRuleDecides | src/internal/bridge/routing.go:83-138 | the compiled router picks the first rule, in order, whose shape filters all hold and whose identity criteria, if any, have a match, under its name or, unnamed, its number; if none applies, `default (group)` and its destination for a group when one is configured, and otherwise `default (direct)` and its destination |
| Routing.FirstApplicableDiscordRuleDecides | src/internal/discordbridge/routing.go:79-126 | the same of Discord's router |
| Routing.FirstApplicableGenericRuleDecides | src/internal/corebridge/routing.go:134-188 | the same of the generic router |
| Routing.DeadExactly | src/internal/bridge/routing.go:104-138 | a rule applies to no conversation, under any patterns, exactly when it asks for both shapes or says nothing at all |
| Routing.ValidExactly | src/internal/config/config.go:359-379 | a rule validates exactly when it can apply to something, its pattern compiles and its destination is valid |
| Routing.PunctuationDoesNotRoute | src/internal/bridge/routing.go:61-66 | separators in phone numbers, of the rules or of the conversation, do not change where a conversation goes, if its title stays or no rule looks at names |
| Routing.TitleDecides | src/internal/bridge/routing.go:104-138 | two conversations that differ only in the punctuation of numbers route alike under all rules, patterns and defaults if and only if they have the same title |
| Routing.TitleKept | src/internal/gmessages/types.go:145-185 | the title is kept when the conversation has a name, or every other participant without one keeps the text of the number |
| Routing.TitleKeptExactly | src/internal/gmessages/types.go:145-185 | when one number changes its punctuation the title is kept in exactly those cases |
| Routing.NamePatternsSeePunctuation | src/internal/gmessages/types.go:161-185 | a concrete case in which punctuation decides: a conversation with somebody unnamed is titled by the number, and a name pattern sees its punctuation |
| Routing.ValidRuleMayNotCompile | src/internal/config/config.go:359-379 | a concrete rule that validates and yet makes building the router fail |
| Routing.ValidRuleCompilesExactly | src/internal/bridge/routing.go:61-66 | a valid rule builds if and only if every phone entry has a digit or a plus |
| Routing.NewPhoneRouter | src/internal/bridge/routing.go:42-81 | the loops build the compiled rules, or fail if some phone entry normalises to nothing or some pattern does not compile |
| Routing.RoutePhone | src/internal/bridge/routing.go:86-138 | the loop makes the choice the lemmas are about |
| Routing.MatchesPhone | src/internal/bridge/routing.go:104-138 | the body of `matches`, with its loop over participants, decides as the specification does |
| Routing.NewDiscordRouter | src/internal/discordbridge/routing.go:39-74 | builds the compiled Discord rules, or fails exactly when a pattern does not compile |
| Routing.RouteDiscord | src/internal/discordbridge/routing.go:79-126 | makes the choice the equivalence compares |
| Routing.MatchesDiscord | src/internal/discordbridge/routing.go:97-126 | the same for Discord's rules |
| Routing.NewGenericRouter | src/internal/corebridge/routing.go:84-129 | builds the compiled generic rules, or fails as they do |
| Routing.RouteGeneric | src/internal/corebridge/routing.go:134-188 | makes the choice the equivalence compares |
| Routing.MatchesGeneric | src/internal/corebridge/routing.go:152-188 | the same for generic rules |
| Routing.RulesFromDiscord | src/internal/corebridge/routing.go:190-207 | translates each rule, in order |
| Conversations.TitlesAgree | src/internal/discord/transport.go:78-94 | a Discord conversation has the same title by its own function and, translated, by the generic one |
| Conversations.PhoneTitle | src/internal/gmessages/types.go:161-185 | the conversation's name, else the other participants joined, else its identifier |
| Conversations.PhoneTitleReads | src/internal/gmessages/types.go:161-185 | a name shows; without one, the others by name or number, read as a list; with nobody else the identifier |
| Conversations.NamesRead | src/internal/gmessages/types.go:240-252 | one name stands alone, two are joined by an and, and every further one is put before the rest with a comma |
| Conversations.OthersInTurn | src/internal/gmessages/types.go:148-156 | the others are everybody but oneself, in order |
| Conversations.TransportTitle | src/internal/transport/types.go:72-113 | the conversation's name, else who else is in it joined with commas and a last and, else its identifier |
| Conversations.DiscordTitle | src/internal/discord/types.go:46-80 | the same for Discord's own conversations |
| Conversations.ToTransportConversation | src/internal/discord/transport.go:82-94 | the loop translates every participant in order |
| PhoneNumbers.NormalizeIdempotent | src/internal/storage/conversations.go:46-62 | a normal form is its own normal form |
| PhoneNumbers.SameNumber | src/internal/storage/conversations.go:46-62 | numbers that differ only by characters other than digits and plus signs have the same normal form |
| PhoneNumbers.DigitsAreKept | src/internal/storage/conversations.go:46-62 | the normal form is the number's digits in order, after a plus exactly when some plus has no digit before it |
| PhoneNumbers.NormalizePhone | src/internal/storage/conversations.go:50-62 | the loop computes the normal form |
| EventQueue.QueueIsFifo | src/internal/gmessages/events.go:297-358 | in every run what was accepted is what was popped followed by the buffer, in order; nothing is accepted after close; a popper is turned away only from a closed, drained queue; and nobody sleeps beside an item or a closed queue without somebody awake to take it |
| EventQueue.Queue.Push | src/internal/gmessages/events.go:320-328 | appends and wakes one popper, or does nothing once closed |
| EventQueue.Queue.TryPop | src/internal/gmessages/events.go:330-345 | hands out the oldest item, ends when closed and empty, and otherwise sleeps |
| EventQueue.Queue.Close | src/internal/discord/events.go:100-105 | closes and wakes everybody; Discord's queue is the same code |
| Rebind.RewritingPreservesMeaningExactly | src/internal/storage/db.go:48-75 | the rewritten query, read with numbered parameters, says the same as the original read with positional ones if and only if no placeholder and no dollar sign is directly followed by a digit |
| Rebind.BindsAlike | src/internal/storage/db.go:48-87 | for such a query binding arguments gives the same statement either way, and undoing the rewrite restores the query |
| Rebind.Rebound | src/internal/storage/db.go:58-75 | the loop numbers the placeholders from one and keeps all other text; other engines get the query as it is |
| DestinationCache.EveryAnswerIsTheDestinations | src/internal/mattermost/channels.go:30-55 | over every interleaving of callers on a fixed server, whatever fails, each answer is the channel of the destination asked for, if destinations have no NUL and their user names are non-empty and comma-free |
| DestinationCache.AlwaysRightExactly | src/internal/mattermost/channels.go:30-55 | for any destinations callers may ask for, over every server and every interleaving, each answer is the destination's own if and only if no two of them share a key |
| DestinationCache.ValidCanBeMisanswered | src/internal/config/config.go:254-283 | a concrete run in which, of two valid destinations, the second is answered with the channel of the first |
| DestinationCache.KeysAgreeExactly | src/internal/mattermost/channels.go:239-247 | without NUL, two destinations share a key if and only if they differ in nothing but how the list of users is cut at commas |
| DestinationCache.KeyInjective | src/internal/mattermost/channels.go:239-247 | with plain user names too, the key determines the destination |
| DestinationCache.ValidIsNotEnough | src/internal/config/config.go:254-283 | two different destinations that validate and share a key |
| DestinationCache.Cache.ResolveDestination | src/internal/mattermost/channels.go:30-55 | with keys that tell the destinations in use apart, answers the destination's own channel, from the cache or afresh, and fails only when it had to resolve and could not |

## Left out

- The first line of a post, thread headers and the text of notices: they only name senders, carriers and errors, so a fate supplies them.
- Bridge.PhoneBridge.HandleIncomingMessage: does not model marking the conversation read on the phone, because no state kept here depends on it.
- Bridge.PhoneBridge.HandleConversationUpdate: does not model rewriting the header of a renamed thread, because only its text changes.
- What a failing call does half-way: a failing statement or REST call is taken to have no effect, and a failed reply look-up quotes nothing.
- Typing and connection events, reconnecting, and the logging around them.
- `convertEvent`, `convertMessage` and the rest of libgm and discordgo: events arrive decoded.
- Delivery.StatusEmoji: which numbers of the protocol's enumeration mean failed, displayed, delivered or pending is a parameter, because the gmproto package is not part of this model.
- Participants are stored as they come; the table's own uniqueness and order are not modelled.
- A creation time of zero replaced by the clock, and the clock itself: times are given.
- White space is the ASCII kind in `TrimSpace`; Unicode white space is not modelled.
- Storage.Database.GetByPost: which of several matching rows a LIMIT 1 query picks is left open, because the engine decides; every theorem holds for any choice.
- Isolation.OneSendToTheRightPerson: asks for thread mode everywhere and no shared name, because it names the thread; `OneRecipientInAnyLayout` has the other layouts, and `Collisions` shows that both conditions are needed.
- Which settings each generation's bridges run with: events carry theirs, and are not tied to the version their generation was started on.
- RulesServer.Server.HandlePut: does not model authentication and request decoding with their statuses; the pairing server's are left out too.
- Rebinding and stopping the listener: its configuration is fixed, and nothing is claimed about whether shutdown completes.
- A write to the configuration file between a push's comparison and its rename, which the original loses: comparing and replacing are one step here. Writers at any other time are modelled.
- JSON: decoding is assumed to undo encoding where `Reloads` and `RulesServer` rely on it, so an absent optional block that comes back as an empty one is not seen.
- Config.Validate: settings besides users, destinations and rules are one acceptance predicate, because their checks are independent of these.
- That every started pairing is closed: a wait under another user's name drops the entry unclosed, and so does a start after the final sweep; `PairingsHaveOneOwner` counts these as dropped.
- Pairing.PairServer.Sweep: the order of closing is any order, because the original ranges over a map.
- Regular expressions: compiling and matching are uninterpreted, and the same for both routers.
- Rebind.BindsAlike: a question mark inside an SQL string literal is rewritten like any other, as in the original; the theorem is about how the two readings compare, not about literals.
- DestinationCache.Cache.ResolveDestination: secret references in destinations, channel creation and joining are inside the server's answer, because they are foreign calls; it is one caller's way, and `EveryAnswerIsTheDestinations` has many.
- The rest of the second Discord bridge, which is unused, and everything about packaging, secrets, cookies and process files.
- Integers are unbounded: 32-bit statuses and 64-bit times never overflow here.
