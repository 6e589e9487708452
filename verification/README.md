# The libmonetra connection engine, modelled and proved

libmonetra is the client side of a pipelined payment protocol. A connection owns
transactions in four first-in-first-out queues (new, ready, pending, done), an
index from message ids to transactions, two byte buffers, one timer that first
times a ping and later idleness, and a list of deferred deletions. Calls of the
user, from any thread and from inside callbacks, interleave with I/O events and
timers. The promises: a payment goes on a wire at most once, every transaction
ends once, nothing is lost by an idle shutdown, and index and queues never drift.

## How the project is built

- `Bytes`, `Decimal`, `Framing`, `Verdicts`, `KeyValue`, `ResponseKind`: the wire codec,
  its round trips, its chunk independence, and what the parser makes of every buffer.
- `Pool`, `Engine`: the connection as a state machine. A step is one section of
  code under the connection lock. The event handler gives up that lock while it
  deletes the ping and around each callback, so it is several steps, and every
  call may fall between any two of them. `History` fields record what an observer
  has seen: frames printed, bytes written and read, replies taken, events queued
  and delivered.
- `Traces`, `Core`, `CoreMoves`, `Effects`, `Invariant`, `Steps`, `HandlerSteps`,
  `PingSteps`: the invariant, and that each of the 22 kinds of step keeps it.
- `Progress`, `Runs`, `Requests`, `OnTheWire`, `Intake`, `Replies`, `Answers`,
  `Shutdown`, `Losses`, `PingWindow`, `CurrentPing`, `Timers`, `Hazards`, `Calls`,
  `Parameters`, `Idle`, `Flow`, `Readings`, `Connecting`, `Legacy`: theorems about whole
  runs, with any number of failures and reconnects.
- `Connection`, `Handler`, `Views`: the source's functions as imperative code over
  objects with mutable fields. Each method is proved to do to the abstract value
  exactly its step. An object is valid when its value ends some run, and every method
  keeps it valid; so whatever methods are called, in any order, the theorems about
  runs hold of the object.
- `Locks`: the lock programs of all functions, on any number of connections, that no
  threads can deadlock, and when destroying a connection is safe.

## What is assumed of the library underneath

Queues are first-in-first-out without duplicates; the events and timers of one
connection are delivered one at a time, so the handler is entered only when it is not
running; a stopped or removed timer does not fire; no I/O event arrives after the I/O
object is destroyed; a search for a byte finds the first one; splitting happens only
outside quotes; reading a number takes the longest run of digits and fails above
2^64 - 1. The random generator is the list of its draws, of which one must be free.
The I/O layer chooses how much of the output buffer it takes and how input is cut up.

Users name only transactions they have not deleted and that are alive, never the
ping, and destroy a connection either when its handler is not running or while it
is marked in use, and not while another thread is connecting it.

## Where the code and its comments or documentation disagree

The model follows the code.

- The handler reconnects at its end after any failure that leaves ready
  transactions, not only after an idle shutdown, and also when the connection is
  about to be destroyed (src/monetra_conn_event.c:307-325).
- The length check after the search for ETX can fail, although its comment doubts
  it (src/monetra_parse.c:241-244): it rejects exactly the frames of a one-digit id
  without data: `Framing.LengthTestExactly`, `Framing.ShortFrameIsReachable`.
- The documentation promises that events still queued when a connection is destroyed
  are not delivered (include/monetra_api.h:259-261). The code looks at the destroy
  flag only after a callback (src/monetra_conn_event.c:286-291). So a destroy of a
  connection in use is followed by one more callback exactly when it was requested
  neither inside a callback nor after the last event of a batch, and never by two:
  `Hazards.CallbackFollowsDestroyIff`, `Runs.AtMostOneCallbackAfterDestroy`,
  `Hazards.CallbackAfterDestroy`.
- Statuses and queues change only under the connection lock, but for one place:
  destroying a connection drops the lock and then frees queues, index and lock
  (src/monetra_conn.c:66-84). That is safe exactly when no other thread has a use of
  the connection before it: `Locks.EveryProgramObeys`, `Locks.TeardownRacesIff`.
- A ready transaction deleted by another thread while the handler, without the
  lock, deletes the ping is sent all the same (src/monetra_conn_event.c:133-149). This
  is the only way for a deleted transaction to be sent: `PingWindow.DeletedInWindow`,
  `PingWindow.DeletedStaysUnsent`, `Hazards.DeletedPaymentSent`.
- Deleting a transaction kills its timeout timer (src/monetra_trans.c:112-116), but the
  one of such a transaction starts only afterwards, and freeing removes none: it
  outlives its transaction exactly when a timeout was set and the input still to be
  read neither answers the transaction nor is malformed. Destroying a connection removes no timeout timers either (src/monetra_conn.c:68-84).
  Nothing else leaves a timer behind: `Timers.TimerOutlivesIff`,
  `Timers.DeletionLeavesTimerIff`, `Timers.TimerMeaning`, `Hazards.DeletedPaymentSent`,
  `Hazards.DestroyedUnderPayment`.
- A parameter with an ETX byte in its name or value breaks its frame, and only such a
  one does: `Requests.RequestReadsBack`, `Requests.EtxIsMisread`.
- A value of letters, digits and spaces is printed without quotes, and loses white
  space at its edges when the library's own decoder reads it back:
  `KeyValue.RoundTripExactly`, `KeyValue.EdgeSpaceIsLost`.

## Model

| member | source | states |
|---|---|---|
| Decimal.ReadPrinted | src/monetra_parse.c:157-158 | a printed message id is read back as itself, whatever non-digit follows |
| Framing.FrameReadsBack | src/monetra_trans_structure.c:5-30 | a printed frame reads back as itself exactly when its data has no ETX and it is not a one-digit id without data |
| Framing.FramesRoundTrip | src/monetra_parse.c:206-254 | any list of printable messages survives printing, concatenation and parsing, with any tail left over |
| Framing.SplitConcat | src/monetra_parse.c:216-251 | parsing a concatenation is parsing the first part, then what it left together with the second |
| Framing.ChunkIndependence | src/monetra_parse.c:206-254 | any chunking of a byte stream gives the messages, leftover or failure of one read of the whole |
| Framing.PrintedStreamDecodes | src/monetra_parse.c:206-254 | printed frames received in any pieces decode to exactly the messages printed |
| Framing.FramesReadBackExactly | src/monetra_parse.c:206-254 | a list of messages survives printing and parsing if and only if each is printable |
| Framing.LengthTestExactly | src/monetra_parse.c:241-244 | of buffers that start with STX, the length test alone rejects exactly those with a digit, FS and ETX next |
| Framing.ShortFrameIsReachable | src/monetra_parse.c:241-244 | so it is reached: a complete frame whose body parses is rejected |
| Verdicts.FrontVerdict | src/monetra_parse.c:206-254 | the verdict on every buffer, byte by byte: wait for under five bytes or an STX without ETX; a message, and which, for STX, the digits of a 64-bit number, FS, data and the first ETX, not before index 4; malformed in all other cases and no others |
| Verdicts.StreamVerdict | src/monetra_parse.c:216-251 | taking messages off one after the other, the parser gives up on exactly the streams that come to a malformed front |
| Verdicts.StreamBrings | src/monetra_parse.c:216-251 | and takes a message with a given id off exactly the streams that bring one before that |
| KeyValue.UnquoteQuoted | src/monetra_parse.c:47-77 | unquoting inverts surrounding and doubling quotes on every text |
| KeyValue.UnquoteBare | src/monetra_parse.c:47-77 | an unquoted value is read back unchanged exactly when it is nonempty, not surrounded by quotes, and has no two adjacent quotes |
| KeyValue.UnquoteLoop | src/monetra_parse.c:47-77 | the unquoting loop, filling a buffer by index, computes the unquoted text |
| KeyValue.DecodeLoop | src/monetra_parse.c:81-138 | the decoder's loop computes the decoded dictionary or fails |
| KeyValue.DecodeAllOrNothing | src/monetra_parse.c:101-135 | decoding succeeds exactly when every nonblank line has its delimiter outside quotes |
| KeyValue.LastLineWins | src/monetra_parse.c:118-121 | the value of a key is that of the last line that sets it |
| KeyValue.EncodeRoundTrip | src/monetra_trans_structure.c:21 | decoding printed pairs with plain keys never fails and gives exactly their keys, each with the value of its last pair: itself if it was quoted, else trimmed, none if nothing is left |
| KeyValue.RoundTripExactly | src/monetra_parse.c:81-138 | pairs with plain and different keys all read back if and only if each value was quoted, or is nonempty without white space at its edges |
| KeyValue.EdgeSpaceIsLost | src/monetra_parse.c:112-116 | a value of one space reads back as no value |
| KeyValue.TrimMeaning | src/monetra_parse.c:106-116 | a trim takes off all white space at both edges and nothing else |
| KeyValue.FoldMeaning | src/monetra_trans.c:139-140 | two keys count as one exactly when they differ at most in the case of letters |
| KeyValue.DecodesExactly | src/monetra_parse.c:81-138 | a reply decodes exactly when it is not empty and each of its nonblank lines has a `=` outside quotes |
| KeyValue.PaddingIsDropped | src/monetra_parse.c:106-116 | white space around a key and around a quoted value is dropped, white space inside the quotes is kept |
| KeyValue.ValuePrinted | src/monetra_trans_structure.c:21 | a value of letters, digits and spaces is printed as it is, any other between quotes, so that unquoting gives it back |
| KeyValue.PayloadMeans | src/monetra_trans_structure.c:16-29 | `PING` is sent for the lone parameter action=ping, in whatever case; text that decodes to the parameters for every other request |
| KeyValue.SetPairMeans | src/monetra_trans.c:139-141 | after setting a parameter there is one with its key, in whatever case, with the new value and no other; all others stay, in order, and nothing else is added |
| KeyValue.SetPairDistinct | src/monetra_trans.c:139-141 | setting parameters one by one never gives a key two values |
| KeyValue.PayloadNoEtx | src/monetra_trans_structure.c:16-29 | what is sent for a request contains an ETX exactly when some parameter does, in name or value |
| Requests.RequestReadsBack | src/monetra_trans_structure.c:5-30 | the frame of a request reads back at the peer exactly when no parameter has an ETX |
| Requests.EtxIsMisread | src/monetra_parse.c:230-236 | a concrete request with an ETX, and what the peer takes it for |
| Requests.PlainAlways | src/monetra_trans.c:131-146 | in a run whose callers never put an ETX into a parameter, no request ever holds or prints one |
| Parameters.RequestIsAsSet | src/monetra_trans.c:131-146 | in every state of every run, the request of a transaction not sent yet has one parameter for every key ever set, with the value set last |
| Parameters.PrintedAsSet | src/monetra_trans_structure.c:5-30 | in every run, what was printed for a payment encodes a request with, for each key, the value of the last accepted call that set it; a ping says `PING` |
| Parameters.TimeoutIsAsSet | src/monetra_trans.c:163-183 | the timeout of a transaction that is not done is the one set last while it was new |
| ResponseKind.KindMeaning | src/monetra_parse.c:5-44 | what makes a reply key/value data, CSV or bulk, in terms of the first decisive byte |
| ResponseKind.DetermineResponseType | src/monetra_parse.c:5-44 | the scan computes that kind |
| Readings.ReplyIsStored | src/monetra_parse.c:172-185 | in every run, an answered transaction stores its reply as key/value fields, CSV or bulk data, by the first byte that decides; a lost one stores the faked refusal with `code` as `DENY` |
| Pool.LookupAgreesWithScan | src/monetra_conn.c:485-555 | looking an id up agrees with scanning the four queues |
| Pool.MoveOk | src/monetra_trans.c:202-205 | moving a transaction between queues keeps queues, index, deferred list and accounting in agreement |
| Pool.EraseOk | src/monetra_trans.c:77-95 | so does removing it from queue and index and freeing it |
| Effects.PromoteAllIs | src/monetra_trans_structure.c:59-69 | the send loop puts the whole ready queue, in order, on the wire and on the pending queue, and changes nothing else |
| Effects.ConnFailIs | src/monetra_conn_event.c:50-117 | a lost connection in one expression: link reset, pending transactions failed in order, ready ones untouched, the report queued |
| Effects.ReadLoopIsFold | src/monetra_conn_event.c:201-217 | draining the input buffer is folding over its frames: each completes the pending holder of its id or nothing, and all complete frames are consumed |
| Invariant.InitInv | src/monetra_conn.c:27-41 | a fresh connection satisfies the whole invariant |
| PingSteps.StepKeepsInv | src/monetra_conn_event.c:159-326 | every step of every kind, in every state the others allow, keeps the whole invariant |
| Steps.StepSend | src/monetra_trans.c:186-214 | sending keeps the invariant in every state, also between the sections of the handler |
| Steps.StepDelete | src/monetra_trans.c:98-128 | so does deleting, at once or deferred |
| Steps.StepSetIdleTimeout | src/monetra_conn.c:271-300 | so does changing the idle timeout, with its effect on the shared timer |
| HandlerSteps.ConnFailInv | src/monetra_conn_event.c:50-117 | losing the connection restores the invariant from any point of the handler |
| PingSteps.StepOnRead | src/monetra_conn_event.c:194-231 | reading keeps it, before and after the ping is answered |
| PingSteps.StepResume | src/monetra_conn_event.c:140-156 | going on after the lock was dropped keeps it |
| PingSteps.StepDrain | src/monetra_conn_event.c:295-314 | draining the deferred deletions keeps it |
| Runs.InvAlways | src/monetra_conn_event.c:159-326 | the invariant holds in every state of every run |
| Runs.SentAtMostOnce | src/monetra_trans_structure.c:59-69 | over all connections of a run a live transaction was printed exactly once if pending or done, never if new or ready, none twice, and payments in `send` order |
| Runs.NeverResent | src/monetra_conn_event.c:78-113 | once printed, a transaction has been printed exactly once at every later point, through failures, reconnects and its own deletion |
| Runs.ForwardOnly | src/monetra_parse.c:166-190 | statuses only move forward, a done transaction keeps its outcome, a freed one never comes back |
| Runs.FreedExactlyOnce | src/monetra_conn.c:54-87 | every transaction ever allocated is live or freed, once; after destroy each has been freed exactly once |
| Runs.NotFreedInUse | src/monetra_conn.c:60-66 | the connection is never freed while the handler uses it |
| Runs.TraceInLanguage | src/monetra_conn_event.c:286-291 | events about a transaction read NOCONNECT* TIMEOUT? (DONE or ERROR)? or a prefix of it, as queued and as delivered |
| Runs.FinalEventTellsFate | src/monetra_conn_event.c:84-113 | exactly one final event, queued last: DONE for a transaction that took a reply, ERROR for one lost with its connection, none for one not finished |
| Runs.AllDeliveredAtRest | src/monetra_conn_event.c:284-292 | at rest every event ever queued has been delivered, in order, so the events the user saw tell each transaction's fate |
| Runs.StatusFollowsLog | src/monetra_conn_event.c:63-76 | the connection events queued and the status always agree |
| Runs.ConnectionLogAccepted | include/monetra_api.h:255-266 | a terminal event is the last one before the next attempt, and nothing else is |
| Traces.OneConnectedPerAttempt | src/monetra_conn_event.c:140-146 | an accepted log has at most one CONNECTED between two attempts |
| Traces.RunAccepts | src/monetra_conn_event.c:84-113 | the automaton of transaction events accepts exactly the language above |
| Runs.CallbackPointerValid | src/monetra_conn_event.c:284-292 | a transaction handed to a callback is alive |
| Hazards.CallbackFollowsDestroyIff | src/monetra_conn_event.c:282-291 | after a destroy of a connection in use, a callback starts before the end if and only if the request came neither inside a callback nor after the last event of the batch |
| Runs.NoCallbackAfterDestroy | src/monetra_conn_event.c:286-291 | in particular none after a destroy requested inside a callback |
| Runs.AtMostOneCallbackAfterDestroy | src/monetra_conn_event.c:286-291 | after a destroy requested elsewhere at most one callback starts |
| Hazards.CallbackAfterDestroy | src/monetra_conn_event.c:282-291 | a concrete run in which one starts |
| OnTheWire.PeerDecodesPrefix | src/monetra_trans_structure.c:39-69 | if no call put an ETX into a parameter, whatever left on a connection decodes at the peer to a prefix of the messages printed for that connection, none left over from an earlier one |
| OnTheWire.PeerDecodesExactly | src/monetra_trans_structure.c:39-69 | a connection whose bytes have all left decodes to exactly the messages printed for it if and only if none of them holds an ETX |
| OnTheWire.PeerReceivesOnce | src/monetra_conn_event.c:63-70 | under the same condition on the calls, no two messages the peer decodes, on any connections of a run, are of the same transaction |
| OnTheWire.PingComesFirst | src/monetra_trans.c:241-254 | with pings on the first frame of a connection is the ping, and a second is printed only after its reply was taken |
| OnTheWire.QuiescentCoupling | src/monetra_conn_event.c:63-76 | at rest status, I/O object, buffers, timer and queues fit together |
| OnTheWire.IndexAgreesWithQueues | src/monetra_trans.c:15-20 | at rest each indexed transaction is in exactly one queue, once, and lookups agree with the queues |
| Intake.ReadsAreOneStream | src/monetra_conn_event.c:194-217 | however the bytes of a connection arrived, frames taken and buffer left are those of the whole input read at once |
| Intake.MalformedEndsConnection | src/monetra_conn_event.c:224-229 | a read ends the connection exactly when the bytes read so far break, as spelled out in `Verdicts`, and, while the ping is waited for, it brings no frame with its id |
| Intake.MalformedAfterPing | src/monetra_conn_event.c:201-229 | going on after the ping was answered ends the connection exactly when the bytes read so far break |
| Intake.ReadsAddUp | src/monetra_conn_event.c:194-200 | a read adds its bytes to the input so far |
| Readings.ReadMeans | src/monetra_conn_event.c:201-229 | at every read on a usable connection: a pending transaction is answered by the first message with its id and keeps that data; without one it is lost if the stream breaks and unchanged if not; a transaction that is not pending is unchanged |
| Readings.ResumeReadMeans | src/monetra_conn_event.c:136-155 | the same where the handler reads on after the ping: everything ready is sent first and takes part |
| Replies.FirstReplyWins | src/monetra_parse.c:165-170 | over a whole run no transaction takes two replies |
| Answers.AnsweredWhereSent | src/monetra_conn_event.c:63-70 | every reply taken was a frame read on one connection, and answered a transaction put on the wire of that very connection |
| Shutdown.IdleTimerMeaning | src/monetra_trans_structure.c:71-73 | while connected the idle timer exists exactly when a timeout is set and runs only with nothing pending |
| Shutdown.IdleCheckNeverFails | src/monetra_conn_event.c:258-267 | the re-check when the idle timer fires never fails |
| Idle.IdleTimerIff | src/monetra_conn_event.c:219-222 | in every state of every run, on a connected connection: the idle timer runs if and only if bytes were read, a transaction was deleted for good, or the timeout was set, and since then the connection has been connected with a timeout set and nothing pending; it is stopped otherwise, and absent without a timeout |
| Idle.ReadTimerMeans | src/monetra_conn_event.c:219-222 | at every read a usable connection survives, also one being closed, the timer starts anew when nothing is left pending, and is left alone otherwise |
| Shutdown.IdleStep | src/monetra_conn_event.c:54-88 | during an idle shutdown no step prints or reports anything until the connection is down, which is reported as one CONN_DISCONNECT alone |
| Shutdown.IdleShutdownLossless | src/monetra_conn_event.c:78-88 | over the whole shutdown every undeleted transaction that was ready, or was sent meanwhile, is ready and stays so, in `send` order, and the log gains at most that one event |
| Shutdown.FailureReport | src/monetra_conn_event.c:82-116 | when the I/O layer reports the end, the batch is NOCONNECT per ready, ERROR per pending, in queue order, then one connection event |
| Losses.EveryLossReported | src/monetra_conn_event.c:50-117 | however a connection is lost, by I/O, malformed reply or unanswered ping, the step queues at most CONNECTED and replies, then that report for what was still pending |
| Shutdown.RequestedDisconnect | src/monetra_conn_event.c:56-61 | a requested disconnect is always reported as CONN_DISCONNECT, also when I/O or parser report an error |
| Calls.DisconnectMeans | src/monetra_conn.c:452-467 | at every disconnect of every run: a connected connection becomes disconnecting, any other is unchanged, and so is everything else |
| Calls.DisconnectIsReported | src/monetra_conn_event.c:56-61 | after a disconnect of a connected connection, the first step that brings it down, whatever falls between, reports CONN_DISCONNECT last |
| Flow.PingTimeoutEndsConnection | src/monetra_conn_event.c:251-257 | the connection timer firing before the ping was answered brings the connection down when the handler goes on, whatever calls fall between, with CONN_ERROR last |
| Flow.OtherTimeout | src/monetra_conn_event.c:258-274 | firing on a connected connection it begins the idle shutdown, on a disconnecting one it is only removed; nothing else changes |
| Shutdown.ReconnectsIffWorkWaits | src/monetra_conn_event.c:307-319 | the handler decides to reconnect exactly when, at the drain, the connection is down and an undeleted ready transaction waits; whatever calls fall between, the attempt is made exactly if decided, not overtaken by another connection, and creatable |
| PingWindow.WhoIsPrinted | src/monetra_trans_structure.c:59-69 | exactly which step puts which transaction on the wire |
| Calls.SendMeans | src/monetra_trans.c:186-214 | at every `send` of every run: a new transaction with a parameter gets the next send number and is, when connected, pending and printed with its timer started and the idle timer stopped, otherwise last in the ready queue; nothing else changes; any other `send` changes nothing |
| Calls.SendsAreCounted | src/monetra_trans.c:196-205 | that number is the number of accepted sends before |
| Calls.CallsMean | src/monetra_trans.c:77-128 | what creating, deleting, connecting, setting the idle timeout and destroying do to the whole state, at every such call of every run, at once or deferred |
| Flow.HandlerComesToEnd | src/monetra_conn_event.c:282-325 | from wherever the event handler stands it can go on, nothing enters it again, each of its steps brings it nearer to its end, and calls do not take it back |
| Flow.FinishMeans | src/monetra_conn_event.c:321-325 | it ends at rest with nothing changed, or, if asked to, with the connection and every transaction freed |
| Flow.WriteMeans | src/monetra_conn_event.c:233-239 | a write moves the first bytes of the output buffer to the wire, in order, and changes nothing else |
| PingWindow.DeletedStaysUnsent | src/monetra_trans.c:98-128 | a transaction deleted before it was sent is never sent, unless it was deleted while ready and the handler deletes the ping |
| PingWindow.DeletedInWindow | src/monetra_conn_event.c:133-149 | deleted while the handler deletes the ping, it is sent if and only if it was ready, or sent before |
| Hazards.DeletedPaymentSent | src/monetra_conn_event.c:133-149 | a concrete run in which a deleted payment is sent, its timer started, and the payment freed with that timer running |
| Hazards.DestroyedUnderPayment | src/monetra_conn.c:66-84 | a concrete run in which destroying a connection frees a payment with its timer running |
| Timers.TimerMeaning | src/monetra_trans_structure.c:59-69 | the timeout timer of an undeleted transaction runs if and only if a timeout was set, it is on the wire, neither answered nor lost, and its timeout has not been reported |
| Timers.DanglingStep | src/monetra_trans.c:46-57 | which step frees which transactions with their timers running: the deferred drain those deleted with one, destroying the connection every one, no other step any |
| Timers.DeletionLeavesTimerIff | src/monetra_trans.c:98-128 | what becomes of the timer is settled at the deletion: once freed, the transaction left it running if and only if it was deleted while ready, with a timeout, while the handler deletes the ping and will go on to send, and the input still to be read neither answers it nor is malformed |
| Timers.TimerOutlivesIff | src/monetra_trans.c:46-57 | over all runs, a transaction has been freed with its timer running if and only if it was deleted like that, or its connection was destroyed while it was on the wire in time |
| CurrentPing.PointerIsCurrent | src/monetra_conn_event.c:121-137 | while an I/O object is up, `pingtxn` is null or the ping sent first on this very connection, and it is null once the connection is usable |
| Connecting.SplitRunsAreRuns | src/monetra_conn.c:419-444 | connecting in two sections, with the lock dropped for the user's I/O callback and any steps but a teardown in between, reaches only states that runs with connecting in one step reach |
| Legacy.SuccessMeansReply | src/monetra_legacy.c:624-636 | success is reported exactly for an id whose holder took an approving reply that is on record; a transaction lost with its connection is always reported failed |
| Legacy.StatusMeans | src/monetra_legacy.c:598-636 | the number reported for an id is 0 when no transaction has it, else 100, 1, 1 or 2 as its holder is new, ready, pending or done; the codes that approve are `success` and `auth`, in whatever case |
| Legacy.OutcomeIsFinal | src/monetra_legacy.c:598-636 | a reported outcome does not change while the transaction exists |
| Legacy.SentAreCounted | src/monetra_legacy.c:375-382 | at rest the count is the number of live transactions ever put on a wire |
| Legacy.CompleteAuthorizations | src/monetra_legacy.c:639-671 | the array holds the ids of the done queue in order, and an id is in it exactly when its status is DONE |
| Connection.Conn.DrawId | src/monetra_trans.c:15-20 | the retry loop returns the first free draw |
| Connection.Conn.TransNew | src/monetra_trans.c:27-44 | a new transaction under a free id, in queue and index |
| Connection.Conn.AppendFrame | src/monetra_trans_structure.c:5-30 | the bytes appended piece by piece are the frame of the request |
| Connection.Conn.TransStructure | src/monetra_trans_structure.c:5-30 | the frame is appended and the request forgotten |
| Connection.Conn.SendMessages | src/monetra_trans_structure.c:39-83 | the loop does the abstract send, all of it |
| Connection.Conn.SendLocked | src/monetra_trans.c:186-214 | misuse is refused without effect; otherwise new becomes ready, and pending when connected |
| Connection.Conn.TransDeleteUnlocked | src/monetra_trans.c:77-95 | queue, index, idle timer and memory after a deletion |
| Connection.Conn.TransDelete | src/monetra_trans.c:98-128 | deferred while in use, immediate otherwise, timer killed first |
| Connection.Conn.Connect | src/monetra_conn.c:368-449 | may fail without effect, else an I/O object and CONNECTING |
| Connection.Conn.DisconnectLocked | src/monetra_conn.c:452-467 | only a connected connection begins to disconnect |
| Connection.Conn.SetIdleTimeout | src/monetra_conn.c:271-300 | what becomes of the shared timer |
| Connection.Conn.HandleConnError | src/monetra_conn_event.c:50-117 | the two loops and the assignments do the abstract failure |
| Connection.Conn.ParseMsg | src/monetra_parse.c:145-200 | error, orphan or completed transaction, with its response stored and its queue changed |
| Connection.Conn.ParseTransBuffer | src/monetra_parse.c:206-254 | the loop takes frames off until one completes a transaction, the buffer starves, or its front is malformed, and leaves in the buffer what the source leaves |
| Connection.Conn.ReadMessages | src/monetra_conn_event.c:201-217 | the outer loop does the abstract read loop and terminates |
| Connection.Conn.PingRequest | src/monetra_trans.c:241-254 | the ping goes straight to the pending queue and into the output buffer |
| Connection.Conn.CleanupPing | src/monetra_conn_event.c:121-133 | timer gone, ping off its queue |
| Connection.Conn.SetConnected | src/monetra_conn_event.c:136-155 | announced, ready transactions sent, idle timer created if wanted |
| Connection.Conn.DrainDeferred | src/monetra_conn_event.c:297-303 | every deferred deletion is carried out, in order |
| Handler.TakesKeeps | src/monetra_conn_event.c:159-326 | a step leads from the last state of a run to the last state of a longer run |
| Handler.New | src/monetra_trans.c:27-44 | keeps the object at the end of a run and takes exactly its step |
| Handler.Send | src/monetra_trans.c:186-214 | so does `send`, which goes on to connect when disconnected |
| Handler.Delete | src/monetra_trans.c:98-128 | so does deleting |
| Handler.Destroy | src/monetra_conn.c:54-87 | so does destroying, deferred while in use |
| Handler.OnConnected | src/monetra_conn_event.c:169-180 | so does the handler on the connected event, with and without ping |
| Handler.OnLinkLost | src/monetra_conn_event.c:182-192 | on a disconnect or an I/O error |
| Handler.OnRead | src/monetra_conn_event.c:194-231 | on data |
| Handler.OnWrite | src/monetra_conn_event.c:233-239 | on room to write |
| Handler.OnTransTimer | src/monetra_conn_event.c:244-250 | on the timeout of a transaction |
| Handler.OnConnTimer | src/monetra_conn_event.c:251-274 | on the connection timer, as ping timeout or as idleness |
| Handler.DeletePing | src/monetra_conn_event.c:133-135 | while it deletes the ping without the lock |
| Handler.ResumeHandler | src/monetra_conn_event.c:135-156 | when it goes on with the lock |
| Handler.TakeEvent | src/monetra_conn_event.c:286-288 | when it takes the next event |
| Handler.CheckDestroy | src/monetra_conn_event.c:289-291 | when it looks for a destroy request after a callback |
| Handler.DrainDeferred | src/monetra_conn_event.c:295-314 | when it drains the deferred deletions and decides about reconnecting |
| Handler.Reconnect | src/monetra_conn_event.c:316-319 | when it reconnects |
| Handler.Finish | src/monetra_conn_event.c:321-325 | when it ends, destroying the connection if asked to |
| Views.TransCount | src/monetra_conn.c:485-504 | the number of transactions of a status or of all; at rest, of the set of them |
| Views.TransList | src/monetra_conn.c:507-538 | the appending loops list exactly the transactions asked for, each once |
| Views.GetTransByInternalId | src/monetra_conn.c:541-555 | the one transaction with that id, or none exactly when there is none |
| Locks.EveryProgramObeys | src/monetra_conn.c:54-87 | every sequence of calls and handler runs, on any connections, with any calls made in the event callbacks and in the I/O callback of connecting, takes connection locks with empty hands and one transaction lock at a time, and enters callbacks with empty hands; it changes statuses and queues only under their connection lock if and only if it destroys no connection |
| Locks.NoDeadlock | src/monetra_trans.c:191-212 | if some thread is not done, some thread can run |
| Locks.NeverBlocks | src/monetra_conn_event.c:282-325 | so under every schedule of any number of threads on any number of connections the system never blocks before all are done |
| Locks.TouchIsExclusive | src/monetra_trans_structure.c:46-69 | a thread that destroys nothing, when it changes a status or a queue, is alone in holding the lock of that connection |
| Locks.TeardownRacesIff | src/monetra_conn.c:66-84 | while a thread frees a connection without its lock, another can come to use it if and only if another has a use of it still to do |

## Left out

- Handles: an address is never used twice in the model, where the allocator may reuse one in the source. A ping pointer left behind by a lost connection is not looked at before it is overwritten: `CurrentPing.PointerIsCurrent`.
- Ids: an id is free again once its holder is deleted, so a late reply to the old holder completes the new one; replies are matched to the current holder, as in the source.
- Connection.Conn.Connect: is one step that may fail; that the user's I/O callback in the middle of it, with the lock dropped, adds no behaviour is `Connecting.SplitRunsAreRuns`, about runs and not about the method.
- Settings: switching pings on or off is done before the first connection, and not later.
- Destroying while another thread is between the end of the handler's deliveries and its last look at the destroy flag, when the source offers no protection; `Locks.TeardownRacesIff` says when that is safe.
- Error texts and the `verbiage` parameter of a faked refusal; user data pointers.
- The trigger that wakes the writer, and when timers fire: no promise that something happens, only what may.
- Legacy.SuccessMeansReply: takes the lookups of one call as one moment; the source takes the lock for each, and `Legacy.OutcomeIsFinal` says that they agree as long as the transaction is not deleted between them.
- Legacy.SentAreCounted: takes the two counts as one moment; the source takes the lock twice.
- KeyValue.EncodeRoundTrip: parameters are printed in the order they were set, where the source prints them in hash order; strings with an embedded NUL are not modelled.
- CSV parsing, base64, binary parameters, and the raw copy of a reply being handed over to the CSV parser.
- TLS, name resolution, certificates, the proxy, and engine initialisation.
- The blocking calls of the older interface, which run an event loop of their own; its string and enumeration tables; `M_ReturnCode`.
- `LM_trans_run`, which is the calls new, set parameters and send in sequence.
