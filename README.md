# archeolog extraction engine in Dafny

archeolog prints the slice of a timestamp-prefixed log file that lies between
a start and an end time. It does this without reading the whole file. Four
filters form a chain, and one loop, `arlg_extract`, drives them:

- the **file source** reads aligned chunks through a small cache of slots;
- the **start-date locator** binary-searches byte offsets for the first line
  at or after the start bound, and scans line by line once the window is
  small;
- the **data stage** passes whole lines on until the first line later than
  the end bound, then splits the chain;
- the **sink** writes what it gets to standard output.

This project models that engine, its stages, the chunk cache and the
configuration checks. It proves what each promises to its callers.

The modules follow the source files:

| module | file | models |
|---|---|---|
| `Types` | types.dfy | the chain outcomes, timestamps, uint64 arithmetic and the configuration record |
| `Conf` | conf.dfy | `conf_init`, `conf_check`, `conf_date`'s separator handling and `date_parse`'s classification (src/conf.c) |
| `Stream` | stream.dfy | the `ffstream` gather buffer, by contract, as its call sites use it |
| `FCache` | fcache.dfy | the slot pool (src/fcache.h) |
| `File` | file.dfy | the file source (src/file.h) |
| `Lines` | lines.dfy | `newline_find` |
| `Search` | search.dfy | the probe and window arithmetic of `startdate_find` |
| `StartDate` | startdate.dfy | the locator (src/startdate.h) |
| `Chain` | chain.dfy | the filter vector, the cursor and the `CHAIN_FBACK`/`CHAIN_FFIRST` flags, as values |
| `Proc` | proc.dfy | `struct archeolog`: the data stage, the sink, `arlg_extract` and `arlg_close` (src/proc.h) |

The model takes the same form as the code:

- Code that changes state in place is a class with `modifies` clauses:
  - `Proc.Arlg` for `struct archeolog`;
  - `File.FileSource` for `struct arlg_file`;
  - `FCache.Cache` for `struct fcache`;
  - `StartDate.Locator` for `struct arlg_startdate`;
  - `Conf.ArlgConf` for `struct arlg_conf`.
- The source's `for (;;)` state machines are methods with `while` loops and
  invariants.
- Pure code is functions and lemmas.

The file on disk is an immutable byte sequence, and `fffile_readat` takes a
slice of it. Standard output is a ghost sequence that only grows. The two
date-library parsers are oracle functions passed in as values; the only thing
assumed of them is that a match never claims more bytes than it was given.

### How the engine's invariant is stated

The proof of `arlg_extract` rests on a loop invariant, `Proc.Arlg.Running`:

- `Chain.Shape` holds:
  - the cursor is in range;
  - the filters stay in chain order, and the sink is last and never retired;
  - filters before the cursor are opened, and none after it is retired;
  - a retired filter is met only when going backward;
  - `CHAIN_FFIRST` means that every filter before the cursor is retired.
- Two ghost logs record the `open()` and `close()` calls. They agree with the
  vector (`Proc.LogsAgree`):
  - no filter is opened or closed twice;
  - exactly the removed filters were closed.
- The file descriptor is open only while the file filter is opened.
- The data stage is at rest while it is active.

Each arm of `chk_ret:` and the retire branch has a lemma that this invariant
survives it. `arlg_close` is then proved to complete the logs: every filter
whose `open()` was called has its `close()` called exactly once
(`Proc.CloseCompletes`).

### Where the model departs from the text of the code

- **Step budgets.** The source loops run unbounded. Each loop here takes a
  step budget. When the budget runs out the run ends as `Stalled` or
  `OutOfSteps`.
  - This budget is not just technical. When `date_len` is 0 the data
    stage's gather step never asks for input, so once the input runs out
    before the end of the file the source loops forever. Two conditions lead
    there:
    - no start or end bound is given, so `date_len` stays 0, but a line limit
      or a filter is, so `dataproc_open` returns READY and the stage runs;
    - the first read does not reach the end of the file (a file of at least
      one large chunk), so the input is used up while `read_last` is clear.

    `Proc.Arlg.DataprocProcess` states this case: entered in the gather
    state with no end bound, nothing pending or offered and `read_last`
    clear, it always ends `Stalled`.
- **Faults.** Two source paths assert or shift out of bounds. The model ends
  the run with a `Fault` verdict instead:
  - `CHAIN_PREV` at the head of the chain fails `FF_ASSERT(i >= 0)`;
  - a fresh read shorter than the distance from the aligned offset to `cur`
    makes `ffstr_shift` leave the slot (`File.FileSource.ShiftInRange`).
- **Shared next-state field.** The source keeps both stages' next state in
  the one field `a->nxstate`. Here each stage has its own (`Locator.next`,
  `Arlg.next`). Each stage writes the field before it reads it again, so the
  split cannot be observed.
- **Uninitialised locals.** `startdate_find` reaches `fin:` from `I_GATHER`
  at the end of the file. When `I_GATHER` is the first state run in that
  call, `view` and `line_off` are unset. The model starts both from an
  arbitrary value. It states nothing about the output or the new offset on
  any `fin:` taken from `I_GATHER`, and states both on every other exit.

## Model

| member | source | states |
|---|---|---|
| `Types.Cmp` | src/conf.c:190-191 | fftime_cmp: zero exactly for equal times; negative exactly when earlier in (sec, nsec) order; positive exactly when later |
| `Types.Sub64` | src/startdate.h:119 | uint64 difference: the plain difference when it is not negative, otherwise wrapped by 2^64 |
| `Types.Wrap64` | src/startdate.h:58 | reduction into uint64: identity in range, one wrap either side |
| `Types.Add64` | src/startdate.h:94 | uint64 sum: the plain sum below 2^64, otherwise wrapped once |
| `Conf.DateParse` | src/conf.c:76-105 | the code lies in -1..len; a match returns exactly the matched width and time; a bad date/time separator gives 0; an unmatched input gives -1 exactly when it is shorter than date_len, else 0 |
| `Conf.Validated` | src/conf.c:184-201 | refuses exactly a missing file name, start after end (both set) or a zero large chunk; on success only the small chunk changes, to one of the two sizes and at most the large one |
| `Conf.ArlgConf.Init` | src/conf.c:177-182 | small 4 KiB, large 8 MiB, align 4 KiB; no other field changes |
| `Conf.ArlgConf.Check` | src/conf.c:184-201 | returns 1 exactly when Validated refuses, leaving the record unchanged; otherwise returns 0 and the record becomes the validated one |
| `Conf.ArlgConf.Date` | src/conf.c:16-47 | unknown layout: 0 and nothing changes; yyyy-MM-dd sets the layout and date_len 10 and changes no other field; a following ' ' or 'T' is skipped and makes date_len 11; any other character returns 1 with the layout and date_len 10 already set and the rest of the string from that character |
| `Stream.GatherRef` | src/startdate.h:42-52 | the offered span is the pending bytes plus the taken input prefix and becomes the new pending content; a span shorter than requested took all input; input stays referenced only when nothing was held |
| `Stream.Consume` | src/proc.h:189 | the pending bytes lose exactly their first n (all when fewer) |
| `FCache.FindFirst` | src/fcache.h:54-65 | the index of the first slot covering the offset, no earlier slot covering it; None exactly when no slot covers it |
| `FCache.FreshPoolMisses` | src/fcache.h:28-32 | a pool of freshly initialised slots covers no offset |
| `FCache.NextIndex` | src/fcache.h:49 | round-robin successor: always below the slot count, the next index, or 0 after the last |
| `FCache.Cache.Init` | src/fcache.h:21-34 | exactly nbufs slots, each empty and marked at offset UINT64_MAX |
| `FCache.Cache.NextBuf` | src/fcache.h:45-51 | hands out the slot at idx and advances idx round-robin; idx stays below the slot count |
| `FCache.Cache.Find` | src/fcache.h:54-65 | returns FindFirst of the offset; counts one hit when found and one miss otherwise, nothing else |
| `File.ReadAt` | src/file.h:70 | a positioned read: at most n bytes, exactly the file's bytes from the offset, nothing at or past the end |
| `File.AlignFloor` | src/file.h:66 | the aligned-down offset r is a multiple of align and satisfies r <= cur < r + align: the largest such multiple (the source's power-of-two mask gives the same value for the only alignment set, 4096) |
| `File.SlotsMatchAt` | src/file.h:57-62 | in a pool whose slots hold the file's own bytes, each single slot does |
| `File.SlotsMatchStore` | src/file.h:80-86 | storing a slot of the file's own bytes keeps the whole pool faithful |
| `File.EmptySlotsMatch` | src/fcache.h:28-32 | a pool of empty slots is faithful to any file |
| `File.FileSource.Open` | src/file.h:7-29 | large chunks and no pending seek; fails exactly when the file is absent or its size does not fit int64; an absent file leaves the descriptor closed, a size that does not fit leaves it open with the cache untouched until file_close; on success a one-slot empty cache and the file's size |
| `File.FileSource.Close` | src/file.h:31-41 | the descriptor is closed and the slots released |
| `File.FileSource.Read` | src/file.h:44-88 | a pending seek moves cur and is cleared; Done exactly when no seek was pending after the last short read, and then neither the source nor its cache changes; Next returns the file's bytes from the read position to the new cur; a hit ends cur at the slot's end, counts a hit and leaves the slots, the round-robin index and the miss count alone; a miss replaces only the slot at the round-robin index (with the read bytes at the aligned-down offset, or just that offset when the read is empty), moves the index to the next slot, counts a miss and not a hit, is Err exactly when that read is empty, and sets cur and read_last from the read |
| `File.FileSource.Serve` | src/file.h:57-87 | the cache lookup after the seek: a hit always succeeds, counts a hit and leaves the slots, index and miss count alone; on a miss, the same results and slot update as Fill, plus one more miss |
| `File.FileSource.FromSlot` | src/file.h:57-62 | a cache hit serves the file's bytes from cur to the slot's end, and cur moves there |
| `File.FileSource.Fill` | src/file.h:65-87 | only the slot at the round-robin index changes: it gets the read bytes at the aligned-down offset, or just that offset when the read is empty, and the index moves to the next slot; Err exactly when the read there is empty; otherwise the output is the file's bytes from cur to offset + length, cur moves there and read_last is set for a short read |
| `File.FileSource.Install` | src/file.h:80-87 | the slot holds the read bytes at their offset, cur ends after them, read_last marks a short read, and the output is the file's bytes from the old cur |
| `File.FileSource.Store` | src/file.h:80 | only slot k changes, and the pool stays faithful to the file |
| `File.FileSource.Behaviour` | src/file.h:90-107 | sequential access selects large chunks, random access small ones; always returns 0 |
| `File.FileSource.Seek` | src/file.h:109-113 | only the pending seek changes |
| `Lines.FindChar` | src/proc.h:78 | the index of the first occurrence of c, or -1 exactly when c does not occur |
| `Lines.NewlineFind` | src/proc.h:75-81 | -1 exactly when there is no newline; otherwise 1..len, with the newline last in the prefix and none before it |
| `Search.ProbeAt` | src/startdate.h:118-125 | sequential scan exactly when the wrapped window width is at most the wrapped 2*small, probing start_off; otherwise, for an ordered window without overflow, the probe is start + width/2 - small and lies in [start_off, end_off) |
| `Search.Narrow` | src/startdate.h:93-106 | an earlier timestamp moves the start past the line and records the start date; otherwise the line becomes the end; a line inside the window strictly shrinks it |
| `Search.NarrowAllBracketed` | src/startdate.h:93-106 | however many lines are checked, the recorded start date stays before the bound and the end date at or after it (a fact about Narrow alone; the locator keeps the same bracket per step through NarrowBy) |
| `Search.NarrowAllShrinks` | src/startdate.h:88-108 | each line checked inside the window shrinks it by at least one byte, so the search checks at most as many lines as the window is wide (a fact about Narrow alone; Find's contract does not use it) |
| `StartDate.Locator.Open` | src/startdate.h:4-17 | Done exactly when no start bound is set (nothing changes); otherwise Ready, small reads, the window ends at the file size and there is no previous probe |
| `StartDate.Locator.Close` | src/startdate.h:19-23 | the gather stream is released |
| `StartDate.Locator.Probe` | src/startdate.h:118-136 | the probe is ProbeAt of the window; a repeated probe is Err with nothing scheduled; otherwise Prev with the stream reset, off_prev recorded, the seek scheduled and njumps one higher |
| `StartDate.Locator.Find` | src/startdate.h:27-159 | the outcomes are Prev, Next, Done or Err; the recorded dates keep bracketing the bound; Prev is a new probe or a request for input before the end of the file, and a request for input keeps the gathered bytes and the resume state: unless the call changed it, the state is as before and the gathered bytes only grew; a line whose check asked for more bytes heads the gathered bytes and will be checked again; otherwise the line search resumes; Err is a repeated probe or finishing with no end date; Next keeps a suffix of the input as the saved input; from done: it hands on the view at a line found in sequential mode whose timestamp is at or after the bound, and the new offset is that line's start and the window's end; from the line search's fin: the view at a line at or past end_off, the new offset being its start; from the gather step's fin: the end of the file with all input taken; the call after Next returns Done with the saved input and large reads |
| `StartDate.Locator.Hunt` | src/startdate.h:36-158 | startdate_find from the gather state: the loop and then its exit, with Find's results for Prev, Err and Next |
| `StartDate.Locator.Scan` | src/startdate.h:36-116 | the loop over the scanning states: the input left is a suffix, the dates keep bracketing the bound, each exit carries the facts Leave needs, and a request for input states where the scan resumes |
| `StartDate.Locator.Step` | src/startdate.h:37-110 | one state's step: keeps the offsets in range, the input a suffix, the dates bracketing the bound, and the resume state in agreement with the gathered bytes |
| `StartDate.Locator.Leave` | src/startdate.h:118-158 | the seek:, done:, fin: and input-request exits with the results stated for Find; only seek: and the input request return Prev, and the input request leaves the gathered bytes and the resume state alone |
| `StartDate.Locator.Hand` | src/startdate.h:138-154 | fin: with no end date recorded is Err and changes nothing; otherwise Next with the facts the exit carried, the rest of the input saved, and the view as output from done: or the line search's fin: |
| `StartDate.Locator.GatherStep` | src/startdate.h:41-55 | the offset advances by the bytes taken; a full date's worth moves to the pending state with that span as view; otherwise it gathers again, finishes at the end of the file, or asks for input; the gathered bytes only grow, so the resume state stays in agreement with them |
| `StartDate.Locator.FindLineStep` | src/startdate.h:57-72 | at offset 0 the view is kept; otherwise it skips past the first newline, consuming those bytes, or drops the span and gathers again when there is none; a line at or past end_off finishes; going on, the line search is what resumes and the view is the gathered bytes |
| `StartDate.Locator.CheckStep` | src/startdate.h:74-109 | need-more gathers for a recheck and invalid consumes date_len and looks for the next line, both keeping line_off and the window; a timestamp narrows the window by Narrow at its line offset, then moves on to the next line, reports success or seeks again as After says; need-more leaves the checked view at the head of the gathered bytes as the line to recheck |
| `StartDate.Locator.NarrowBy` | src/startdate.h:93-103 | the window becomes Narrow of the old one |
| `StartDate.Locator.After` | src/startdate.h:93-108 | sequential mode: an earlier line consumes date_len and moves on to the next line, and a later one reports success; otherwise it seeks again |
| `StartDate.Locator.Fin` | src/startdate.h:138-154 | with no end date recorded it is Err and nothing changes; otherwise it succeeds with the view at line_off |
| `StartDate.Locator.Success` | src/startdate.h:142-154 | Next with the view at line_off; the stream is reset, the state is done and the rest of the input is kept |
| `Chain.Start` | src/proc.h:229-243 | four unopened, unretired filters in chain order, cursor 0, CHAIN_FFIRST set: the chain's invariant holds |
| `Chain.OrderedUnique` | src/proc.h:229-240 | in the ordered vector an interface has at most one entry |
| `Chain.SameIfacesOrdered` | src/proc.h:306-316 | changing only flags keeps the vector ordered |
| `Chain.MarkOpened` | src/proc.h:249-250 | only the cursor's entry changes, to opened |
| `Chain.MarkOpenedKeepsShape` | src/proc.h:249-250 | marking the cursor's entry opened keeps the chain's invariant |
| `Chain.Backward` | src/proc.h:296-304 | CHAIN_PREV: the cursor steps back and stays non-negative, FBACK is set, FFIRST is set at the head and kept otherwise |
| `Chain.BackwardKeepsShape` | src/proc.h:296-304 | stepping back from an unretired filter keeps the chain's invariant |
| `Chain.MarkDoneBefore` | src/proc.h:306-312 | every entry before i is retired, the rest unchanged |
| `Chain.Forward` | src/proc.h:306-326 | the cursor advances by one and FBACK clears; DONE and SPLIT retire the filter, SPLIT every earlier one too and sets FFIRST; NEXT from an unretired filter clears FFIRST, DONE keeps it; interfaces and opened flags are unchanged |
| `Chain.ForwardKeepsShape` | src/proc.h:306-326 | moving forward from an opened, unretired filter other than the sink keeps the chain's invariant |
| `Chain.Remove` | src/proc.h:286 | the vector loses exactly one entry |
| `Chain.RemoveAt` | src/proc.h:286 | entries before i stay in place and those after move down one |
| `Chain.Retire` | src/proc.h:286-290 | the entry at the cursor is removed; the cursor steps back with FBACK kept, or at the head stays at 0 with FBACK cleared; FFIRST unchanged |
| `Chain.RemoveKeepsOrder` | src/proc.h:286 | removal keeps the order and unlists the removed interface |
| `Chain.RetireKeepsShape` | src/proc.h:276-291 | removing a retired filter keeps the chain's invariant and leaves no entry for its interface |
| `Chain.RetireEntries` | src/proc.h:286-290 | the per-entry half of RetireKeepsShape: the sink stays last, and the opened, retired and FFIRST conditions carry over |
| `Chain.StartListing` | src/proc.h:229-240 | the initial vector lists every filter as active and none as opened |
| `Chain.FreshEntry` | src/proc.h:249-250 | an unopened entry is the only entry for its interface, so the interface counts as unopened |
| `Chain.MarkOpenedListing` | src/proc.h:249-253 | marking opened adds exactly the cursor's interface to the opened ones; listed and active are unchanged |
| `Chain.ForwardListing` | src/proc.h:306-326 | moving forward keeps listed and opened; anything still active was active before, and the cursor's own only after NEXT |
| `Chain.RemoveKeepsOthers` | src/proc.h:286 | removal keeps every other interface's entry, and its opened flag |
| `Chain.RemoveAddsNothing` | src/proc.h:286 | removal adds no listed, opened or active interface |
| `Chain.RetireListing` | src/proc.h:276-290 | retiring unlists and unopens exactly the cursor's interface |
| `Proc.DataprocOpen` | src/proc.h:86-94 | Done exactly when there is no end bound, no line limit and no filter; otherwise Ready |
| `Proc.LogsAtStart` | src/proc.h:229-243 | the empty logs agree with the initial vector |
| `Proc.EngineAtStart` | src/proc.h:229-243 | the whole invariant holds for the initial vector with empty logs, the descriptor closed and the cache untouched |
| `Proc.LogsAfterForward` | src/proc.h:306-326 | moving forward keeps the logs in agreement with the vector |
| `Proc.AgreesAfterForward` | src/proc.h:306-326 | moving forward keeps the file source in agreement, and the data stage at rest unless it split |
| `Proc.BeforeOpen` | src/proc.h:249-253 | the file filter is opened only once: before its open() the descriptor is closed and the cache untouched |
| `Proc.OpenKeeps` | src/proc.h:249-265 | marking opened and recording the open() keeps the logs in agreement, each filter opened at most once; with the descriptor open after a successful file_open, the whole invariant holds |
| `Proc.RetireKeeps` | src/proc.h:276-291 | closing and removing a retired filter records its close() once, and keeps the whole invariant |
| `Proc.ForwardKeeps` | src/proc.h:306-326 | CHAIN_NEXT, CHAIN_DONE and CHAIN_SPLIT keep the whole invariant |
| `Proc.ToCloseMembers` | src/proc.h:64-70 | arlg_close closes exactly the opened entries having close() |
| `Proc.ToCloseNoDup` | src/proc.h:64-70 | in an ordered vector arlg_close closes no interface twice |
| `Proc.CloseCompletes` | src/proc.h:59-73 | after arlg_extract, arlg_close's calls complete the close log: every opened filter is closed exactly once |
| `Proc.Arlg.constructor` | src/proc.h:52-57 | the zero state with the configuration attached: nothing opened, read or written |
| `Proc.Arlg.DataprocProcess` | src/proc.h:102-195 | Prev emits nothing and loses no input (empty first call, or all input taken before the end of the file); Next emits a non-empty prefix of the backlog that ends a line or empties the stream, and keeps the rest; Split emits a prefix of the backlog and leaves the gathered span and the rest of the input in place, and it does so for one of three reasons: the end of the file was read and nothing was left (an empty backlog and output), or the line just after the output starts a line and has a timestamp after the end bound, or it is too short to parse and the end of the file was read; with no end bound Split emits everything; every line that starts inside what Next or Split emits passed the check (no end bound, no timestamp at its head, or one not after the end bound), including the line at the head of the backlog on the first call and after a check that asked for more bytes; a Next that keeps bytes leaves that head-line check pending for the next call, and a Prev that keeps bytes leaves it as it was; entered gathering with date_len 0, no end bound, no input and read_last clear, it never returns |
| `Proc.Arlg.DataExit` | src/proc.h:187-194 | next: emits buf up to the view and consumes exactly that many bytes; done: emits the same prefix without consuming it, either at the end of the file with nothing left or just before a line the check stopped at; a next: that keeps bytes leaves the check of the line at their head pending, and a request for input that keeps bytes leaves that check as it was; a request for input emits nothing |
| `Proc.Arlg.DataLoop` | src/proc.h:121-185 | each exit of the scanning loop carries the facts DataExit needs, among them that every line begun before the view passed the check, the head line included when it is checked, and that a split is at a line the check stopped at or with nothing left; with date_len 0, no end bound, no input and read_last clear it runs out of steps |
| `Proc.Arlg.DataStep` | src/proc.h:122-184 | one state's step keeps the scanning invariant, including that every line begun before the view passed the check and that in the gather state the next span's head is checked exactly when a check is pending; an exit carries the facts DataExit needs |
| `Proc.Arlg.DataFindLine` | src/proc.h:146-160 | with a newline in the view, the view moves just past it and the line there is checked next; without one, the whole span is passed on (next), or an empty span at the end of the file splits (done), or an empty one gathers more; the lines skipped start nowhere new |
| `Proc.Arlg.DataCheck` | src/proc.h:162-184 | with an end bound: a timestamp after it cuts at the line's start, the head of the span counting as one when it is a checked line; one not after it and an invalid one move on to the line search; a short view splits at the end of the file, otherwise gathers more for a recheck, passing on the lines before it when there are any; without an end bound it moves on to the line search unparsed |
| `Proc.Arlg.DataGather` | src/proc.h:129-141 | takes input into the stream, advancing the offset; a full span (or the end of the file) moves to the pending state; otherwise it gathers again or asks for input |
| `Proc.Arlg.OutHandle` | src/proc.h:199-208 | the input is appended to the output and out_total grows by its length; FIN exactly when CHAIN_FFIRST is set, PREV otherwise |
| `Proc.Arlg.OpenStage` | src/proc.h:249-265 | marks the entry opened before calling open(), so open() runs at most once; the invariant holds unless open() failed; DONE or NEXT never comes from the sink |
| `Proc.Arlg.OpenMarked` | src/proc.h:251-265 | the open() call after marking keeps the invariant unless it failed |
| `Proc.Arlg.CallOpen` | src/proc.h:251-253 | dispatches to file_open, startdate_open and dataproc_open with their results; a failed file_open leaves the descriptor open exactly when the file exists; the sink has no open() and counts as ready |
| `Proc.Arlg.ProcessStage` | src/proc.h:268-275 | the process() of an opened, unretired filter: the invariant holds unless it returned ERR; only the data stage splits; the sink writes its input |
| `Proc.Arlg.CallProcess` | src/proc.h:274 | dispatches to file_read, startdate_find, dataproc_process and out_handle; only the sink writes |
| `Proc.Arlg.Extract` | src/proc.h:212-340 | the loop keeps the chain's invariant; however it ends, the logs agree with the vector; success leaves every filter before the sink retired |
| `Proc.Arlg.StartsRunning` | src/proc.h:229-243 | the laid-out chain, nothing opened or closed, satisfies the loop's invariant at the head |
| `Proc.Arlg.Drive` | src/proc.h:244-336 | the loop keeps the chain's invariant; however it ends, the logs agree with the vector; success leaves every filter before the sink retired |
| `Proc.Arlg.ExtractStep` | src/proc.h:244-336 | one pass of the loop: the open() result is reported exactly when the filter was unopened and is DONE, NEXT, READY or ERR; DONE and NEXT move forward from the opened position with the input unchanged, ERR fails; otherwise the opened filter is run as RunStage says |
| `Proc.Arlg.OpenAndRun` | src/proc.h:249-292 | open() then, on READY, the run of the now opened filter; any other result is acted on at chk_ret with the input as output and nothing closed |
| `Proc.Arlg.RunStage` | src/proc.h:268-292 | a retired filter is closed (the close recorded) and removed, with no verdict, the input kept and the position Retire of the old one; otherwise its process() outcome is handled as ProcessAndAdvance says and nothing is closed |
| `Proc.Arlg.ProcessAndAdvance` | src/proc.h:268-335 | running out of steps ends the run as OutOfSteps, a fault as Fault; a returned result is acted on as Advance says |
| `Proc.Arlg.Advance` | src/proc.h:294-335 | PREV moves back with empty input, and is a fault at the head; NEXT, DONE and SPLIT move forward with the output as input; FIN succeeds with every earlier filter retired; ERR or a stray READY fails |
| `Proc.Arlg.GoBack` | src/proc.h:296-304 | the position becomes Backward of the old one, and the invariant holds |
| `Proc.Arlg.StepOn` | src/proc.h:306-326 | the position becomes Forward of the old one, and the invariant holds |
| `Proc.Arlg.GoForward` | src/proc.h:306-326 | assigns the forward position |
| `Proc.Arlg.Close` | src/proc.h:59-73 | closes the opened listed entries having close(), in vector order, then empties the vector and the stream; after arlg_extract every opened filter has been closed exactly once and the descriptor is closed |
| `Proc.Arlg.RetireStage` | src/proc.h:276-291 | the position becomes Retire of the old one, the close() is recorded, and the invariant holds |
| `Proc.Arlg.CloseRemoved` | src/proc.h:281-291 | the close() of the removed filter keeps the invariant |
| `Proc.Arlg.CallClose` | src/proc.h:281-284 | file_close closes the descriptor; the other close()s leave it alone |

## Left out

- main.c, the command line (`conf_cmdline`, its argument table, `conf_help`, `conf_infile`), `conf_startend` and `conf_time`: command-line glue around a library that is not part of this model.
- The inside of the date library (`_fftime_date_fromstr`, `_fftime_time_fromstr`, `fftime_join1`): oracle functions; `Conf.Join` stands for the join.
- `ffstream`: util/stream.h is not part of this model; `Stream` states only what its call sites rely on, including `reset` as the empty stream.
- OS calls: `fffile_open`, `fffile_size`, `fffile_readat` and `ffstdout_write` become the byte sequence and the ghost output. `fffile_readahead` is a no-op. A read error is modelled as an empty read.
- Allocation failures: `fcache_init` and `ffvec_zallocT` never fail here, and `ffstream_realloc` (in `arlg_open` and `startdate_open`) is not modelled.
- `dbglog`, `fftime_monotonic`, the debug timing and `ret_str`: diagnostics only.
- Enforcement of `max_lines` and `filter`: the source reads them only in `dataproc_open`.
- The NULL check at the head of `arlg_close`: an object is never absent here.
- Slot memory and aliasing: cache slots hold their bytes as values, and the output of `file_read` is a copy rather than a view into a slot.
- Integer widths: `out_total`, `njumps` and the cache counters are unbounded; uint64 wrap-around is modelled only in the offset arithmetic of the locator and the data stage.
- Proc.Arlg.Extract: only success is tied to the end state; that success comes only from the sink's CHAIN_FIN, and failure only from ERR or a failed open, is stated per step by `Proc.Arlg.Advance` rather than by Extract's own contract.
- Proc.Arlg.Drive: the same as for Extract, whose loop it is: each pass's result is stated by `Proc.Arlg.ExtractStep`, and only success is tied to the end state.
- StartDate.Locator.Find: on the `fin:` path taken from I_GATHER the contract states nothing about the output or the new offset. When I_GATHER is the first state run in the call, `view` and `line_off` are unset in the source there.
- File.FileSource.Fill: the source writes the slot's offset before the read; the model writes it only when the read fails, because a successful read overwrites it.
