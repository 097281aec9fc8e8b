# mmglue: the pieces with state, modelled and proved

mmglue is the architecture glue between the musl C library and midipix, a POSIX layer on the
Windows NT kernel. Most of it is headers and one-line forwarders. This project models the pieces
that carry state or arithmetic, and proves what they are for:

* **Non-local jumps** (`Machine`, `JumpCode`, `JumpBlocks64`, `JumpBlocks32`, `NonlocalJumps`,
  `Sigsetjmp`, `Cpu`). setjmp, longjmp and sigsetjmp of nt64 and nt32 are lists of instructions
  of a small x86 machine. `Machine.Exec` and `JumpCode.Run` say what a step and a run are;
  `Cpu.Processor` executes in place, and its methods are the routines as calls. The main result is `Sigsetjmp.EveryArrival`: one
  masked sigsetjmp and any number of longjmps, with arbitrary code in between, and every arrival at
  the tail finds the frame, the return address and the preserved registers of the original call.
  The standard is sections 7.13.1.1 and 7.13.2.1 of ISO C99.
* **Cancellable system calls** (`CancellableSyscall`): the in-place shift of eight arguments into
  seven, the two tail jumps, and the table.
* **Floating-point environment** (`Bits`, `FloatUnit`, `Fenv`, `FenvRuns`). Each routine of the
  assembly file is a method that updates x87 state, MXCSR, registers and memory one instruction
  after another. Two hardware units then refine one flag set and one rounding mode, over every run
  of calls mixed with other floating-point code (`FenvRuns.ProgramRefines`), after sections 7.6.2 to
  7.6.4 of ISO C99.
* **dlopen's path list** (`LoaderNames`, `LoaderPath`): the in-place tokenizer, its vector of
  pointers into the buffer that it is writing to, the separate counting pass, and all path lengths.
* **dlopen's locks** (`LoaderLock`, `LoaderRuns`, `LoaderCalls`, `LoaderProgress`): the protocol of
  dlopen, `__dldopen` and `__dlsopen` as interleaved steps of any number of threads, constructors
  that call them again included. Safety over all runs, how often each call enters the loader and
  calls the hook, the caller's state given back, termination under every schedule, and runs that
  show that every outcome and every depth of nesting occurs.
* **Argument quoting in configure** (`Quoting`): the loop that quotes unknown arguments, and a
  reader for the quoting rules of sections 2.2.1 and 2.2.2 of POSIX.1-2017 XCU.
* **Stack bounds** (`StackBounds`): the bit tricks of `__clone` and `__copy_tls` on words of any
  width, of which nt64 and nt32 are two.

Assembly and C that change things step by step are modelled as methods with loops, arrays and
class fields. The jump routines are data for a machine, because what is proved about them spans
several routines and foreign code; the locks are a transition relation, because the subject is how
steps of several threads interleave.

## What turned out not to hold

* *The vector always holds the names.* strncpy returns its destination, so the list is always
  scanned in the 2048-byte buffer (src/ldso/nt64/dynlink.c:47). `LoaderPath.BuildVector` gives the
  exact condition under which the code reads past it: 2048 characters or more, or 2047 whose
  trailing colons leave the last name open (`LoaderNames.EndsOpen`).
  `LoaderPath.LongNameOverruns` is such a list, with a neighbour that is not.
* *The names are the components of the list.* They are exactly when no component is empty
  (`LoaderNames.NamesAreComponentsIff`): the list is not empty, has no ':' at either end and no
  "::" (`LoaderNames.EmptyComponentIff`). For every list, an empty component becomes "." and takes
  the component behind it along, and an empty last one disappears (`LoaderNames.NamesAbsorb`, with
  "a::b:c" and "a:" in `LoaderNames.EmptyNameAbsorbs` and `LoaderNames.EmptyLastNameIsLost`).
* *The list can be recovered from the names.* A weaker demand, which allows one ':' at the end: it
  can exactly when it has no leading ':' and no "::" (`LoaderNames.RejoinedIffClean`).
* *fegetenv leaves the hardware alone.* `fnstenv` masks all x87 exceptions after its store, so it
  does exactly when all six are masked already (`FenvRuns.MaskedSameIff`); control word 0x37e is a
  case where it does not (`FenvRuns.UnmaskedIsMasked`). In a run from `_start` that sets the
  environment through these routines only, they always are, so no fegetenv of such a run changes
  any hardware state (`FenvRuns.ProgramTransparent`).
* *One thread at a time in the loader.* A null file takes no lock
  (src/ldso/nt64/dynlink.c:38-39). Exclusion holds exactly when no null file is passed
  (`LoaderRuns.ExclusiveIffNoNullFile`, with `LoaderRuns.NullFilesMeet` as the run that shows it).
* *The script gets the arguments that configure got.* Newlines at the end of an argument are lost,
  and nothing else is (`Quoting.LineExactIff`; "a" and a newline in
  `Quoting.TrailingNewlineIsLost`).
* *The published stack bounds are in order.* Exactly when the stack is no smaller than what
  aligning its top cuts off, or, where the limit lies above the last multiple of 16 and rounds to
  zero, when stack and guard reach down to zero (`StackBounds.BoundsInOrderIff`). A stack of 15
  bytes is always enough; one byte is not (`StackBounds.TinyStackOutOfOrder`). The callers of
  `__clone` are in musl and not part of this model, so whether one of them passes such a thread is
  not decided here; the routine itself does not look.

## Model

| member | source | states |
|---|---|---|
| NonlocalJumps.Setjmp64Run | src/setjmp/nt64/setjmp.s:19-30 | the words that setjmp stores, and that the stack pointer and the return address are back in place |
| NonlocalJumps.SetjmpReturns | src/setjmp/nt64/setjmp.s:19-33 | on both targets setjmp returns zero to its caller, the context in the buffer is the caller's after the return, and no word outside `__jb` changes |
| NonlocalJumps.Setjmp32Returns | src/setjmp/nt32/setjmp.s:19-33 | the same for the 32-bit routine with its buffer on the stack |
| NonlocalJumps.LongjmpResumes | src/setjmp/nt64/longjmp.s:19-38 | the saved context becomes the running one, the value is delivered with 0 turned into 1, memory is unchanged |
| NonlocalJumps.Longjmp32Resumes | src/setjmp/nt32/longjmp.s:19-35 | the same for the 32-bit routine |
| NonlocalJumps.LongjmpReturnsAgain | src/setjmp/nt64/longjmp.s:16-38 | setjmp, any code that keeps the buffer, longjmp: setjmp returns a second time, to the same address with the same stack pointer and preserved registers, and a nonzero value |
| NonlocalJumps.LongjmpDelivers | src/setjmp/nt64/longjmp.s:19-24 | the value in eax is the int argument, or one for zero, whatever the upper half of rdx holds |
| NonlocalJumps.LongjmpReturnsRegisters | src/setjmp/nt32/longjmp.s:19-35 | both returns of setjmp register by register: program counter, stack pointer, every preserved register, 0 and then the value |
| Sigsetjmp.Park | src/signal/nt64/sigsetjmp.s:30-34 | return address and one register are parked in the buffer, and setjmp is called in the slot that the return address left |
| Sigsetjmp.Park32 | src/signal/nt32/sigsetjmp.s:37-42 | the same on nt32, with the arguments on the stack |
| Sigsetjmp.SetjmpKeepsParked | src/signal/nt64/sigsetjmp.s:21-34 | the stores of the inner setjmp do not reach the parked words |
| Sigsetjmp.SigsetjmpArrives | src/signal/nt64/sigsetjmp.s:16-42 | a masked call enters the tail as sigsetjmp itself was entered, with the buffer and 0 as arguments |
| Sigsetjmp.Rebuild64 | src/signal/nt64/sigsetjmp.s:36-42 | from any return of the inner setjmp the five instructions restore stack pointer, return address and rbx |
| Sigsetjmp.Rebuild32 | src/signal/nt32/sigsetjmp.s:44-50 | the same on nt32, writing both arguments anew, so that what the caller did to their slots does not matter |
| Sigsetjmp.LongjmpArrives | src/signal/nt64/sigsetjmp.s:36-42 | a longjmp through the buffer enters the tail once more, with its own value |
| Sigsetjmp.EveryArrival | src/signal/nt32/sigsetjmp.s:22-50 | on both targets, after any number of longjmps with foreign code in between, every arrival has the original frame, registers and buffer, and the value delivered |
| Sigsetjmp.EveryArrivalRegisters | src/signal/nt64/sigsetjmp.s:36-42 | the same register by register: stack pointer, return address, every preserved register, rcx or 4(%esp), and the delivered int in edx or 8(%esp) |
| Sigsetjmp.SigsetjmpEither | src/signal/nt32/sigsetjmp.s:22-25 | the int argument alone decides between the tail and plain setjmp, whatever the upper half of rdx holds |
| Sigsetjmp.MaskSaveKeepsArmed | src/signal/nt32/sigsetjmp.s:28-39 | the words of setjmp, the `_NSIG/8` bytes of the mask and the two parked words are pairwise apart, so saving the mask leaves the buffer fit for another return |
| Sigsetjmp.UnmaskedIsSetjmp | src/signal/nt64/sigsetjmp.s:16-18 | without a mask to save, sigsetjmp does what setjmp does |
| Cpu.Processor.CallSetjmp | src/setjmp/nt32/setjmp.s:16-33 | executed in place, setjmp leaves a machine that has returned zero to the caller with the caller's context in the buffer |
| Cpu.Processor.CallLongjmp | src/setjmp/nt32/longjmp.s:16-35 | executed in place, longjmp leaves a machine that runs in the saved context |
| Cpu.Processor.CallSigsetjmp | src/signal/nt64/sigsetjmp.s:14-42 | executed in place, a masked call leaves a machine at the tail, in the frame of the call |
| Cpu.Processor.JumpBack | src/signal/nt64/sigsetjmp.s:36-42 | executed in place, a longjmp through an armed buffer does so again |
| Cpu.Processor.ReturnManyTimes | src/signal/nt32/sigsetjmp.s:14-50 | one machine that runs the call, then foreign code and a longjmp any number of times: it ends at the tail in the frame of the call with the last value |
| CancellableSyscall.CallReachesDispatcher | src/thread/nt64/syscall_cp.s:20-38 | with a zero 32-bit flag, whatever the 32 bits above it, every argument but the first arrives one place down, register by register and slot by slot, the return address and all other memory untouched |
| CancellableSyscall.PendingCancelIsTaken | src/thread/nt64/syscall_cp.s:20-44 | with a nonzero 32-bit flag the handler is entered in the caller's frame, with memory as it was |
| CancellableSyscall.CancellableCall | src/arch/nt64/syscall_disp.c:20-29 | the whole call, from the entry of the routine through stub, dispatcher and table, in terms of rdx, r8, r9 and four stack words: cancelled exactly when the 32-bit flag is nonzero, otherwise the result of entry n for the six values, or -38 when the entry is null, going back to the caller's return address |
| Cpu.Processor.CallSyscallCp | src/thread/nt64/syscall_cp.s:18-44 | executed in place, the call ends in the handler when the 32-bit flag is nonzero and in a reply to its caller otherwise, and nowhere else |
| Fenv.Fetestexcept | src/fenv/nt64/fenv.S:104-112 | returns the flags asked for that either unit has, and changes no hardware state |
| Fenv.FlagsMean | src/fenv/nt64/fenv.S:105-111 | the flags are the six low bits of the x87 status word or MXCSR |
| Fenv.ClearSseFlags | src/fenv/nt64/fenv.S:136-147 | joins the x87 flags to MXCSR and masks out those to be cleared, unless there is nothing to clear |
| Fenv.FlagsCleared | src/fenv/nt64/fenv.S:129-148 | the three ways through the routine all leave the old flags minus the given ones, even where `fnclex` wiped every x87 flag |
| Fenv.Feclearexcept | src/fenv/nt64/fenv.S:129-148 | clears the given flags and no others, leaves the control bits of MXCSR and the x87 unit alone unless one of its own flags goes, and then every survivor is in MXCSR |
| Fenv.ClearedMeans | src/fenv/nt64/fenv.S:136-146 | what clearing means in bits: the union of the six low bits loses the given ones, the other 26 bits of MXCSR stay |
| Fenv.ClearedMeansX87 | src/fenv/nt64/fenv.S:130-135 | the x87 unit keeps everything but its status word, and that too unless one of its own six bits was to go, when its low byte is wiped |
| Fenv.Feraiseexcept | src/fenv/nt64/fenv.S:170-176 | MXCSR gains the given ones of its six low bits, and nothing else changes in either unit |
| Fenv.RaisedKeepsControl | src/fenv/nt64/fenv.S:172-174 | the mask, rounding and mode bits of MXCSR are as before |
| Fenv.Fegetround | src/fenv/nt64/fenv.S:199-205 | returns the rounding mode of MXCSR in the user's encoding |
| Fenv.RoundMeans | src/fenv/nt64/fenv.S:203-204 | the mode is bits 13 and 14 of MXCSR, and on the x87 side bits 10 and 11 of the control word, in the user's place |
| Fenv.Fesetround | src/fenv/nt64/fenv.S:223-237 | bits 10 and 11 of the argument go to bits 10 and 11 of the x87 control word and to bits 13 and 14 of MXCSR, and nothing else changes |
| Fenv.Fegetenv | src/fenv/nt64/fenv.S:254-258 | the structure holds the hardware state at the call, and the x87 exceptions are masked afterwards |
| Fenv.MaskedMeans | src/fenv/nt64/fenv.S:255-255 | of the hardware only the six mask bits of the x87 control word change |
| Fenv.EnvLayout | arch/nt64/bits/fenv.h:17-32 | at which offset of a `fenv_t` each member of the environment is |
| Fenv.SetDefaultEnv | src/fenv/nt64/fenv.S:310-325 | built on 32 bytes of stack and loaded: control word 0x37f, status 0, tags 0xffff, pointers 0, MXCSR 0x1f80 |
| Fenv.DefaultMeans | src/fenv/nt64/fenv.S:274-287 | the default values, one by one |
| Fenv.Fesetenv | src/fenv/nt64/fenv.S:296-325 | for the pointer -1 these same values, otherwise what the structure holds, where a reserved MXCSR bit faults |
| Fenv.EnvRoundTrip | src/fenv/nt64/fenv.S:305-305 | `fldenv` of what `fnstenv` stored gives every x87 word back |
| Fenv.ImageBesideMxcsr | src/fenv/nt64/fenv.S:255-256 | the 28 bytes that `fnstenv` stores and the MXCSR word at offset 0x1C do not overlap, and nothing outside these 32 bytes changes |
| FenvRuns.Perform | src/fenv/nt64/fenv.S:104-325 | every routine, called as it demands, does to hardware, memory and stack what the runs below assume |
| FenvRuns.ClearedCarries | src/fenv/nt64/fenv.S:129-148 | clearing across two units is clearing in the one flag set |
| FenvRuns.RoundedKeepsRest | src/fenv/nt64/fenv.S:223-237 | outside the rounding fields both control registers keep every bit |
| FenvRuns.CallRefines | src/fenv/nt64/fenv.S:104-325 | one call is one step of the abstract machine, with its answer, no fault, and the stack pointer restored |
| FenvRuns.RunRefines | src/fenv/nt64/fenv.S:188-237 | over every run one flag set and one rounding mode explain every answer, the two rounding fields agree after each event, and MXCSR never holds a reserved bit |
| FenvRuns.ProgramRefines | crt/nt64/crt1.c:20-24 | in particular every run from the control word that `_start` loads |
| FenvRuns.EnvSurvives | src/fenv/nt64/fenv.S:254-258 | no call damages a stored environment that is still in use |
| FenvRuns.SaveKeepsOthers | src/fenv/nt64/fenv.S:254-258 | a new stored environment makes the program forget only those it overlaps |
| FenvRuns.SetenvRestores | src/fenv/nt64/fenv.S:296-307 | fegetenv, any run, fesetenv of the same structure: control, status and tag word, the rest of the x87 environment and MXCSR are exactly as before |
| FenvRuns.ClearThenTest | src/fenv/nt64/fenv.S:104-148 | fetestexcept(m) after feclearexcept(ex) returns the old flags minus ex, restricted to m |
| FenvRuns.RaiseThenTest | src/fenv/nt64/fenv.S:104-176 | after feraiseexcept(ex) it returns the old flags and ex, restricted to m |
| FenvRuns.SetThenGetRound | src/fenv/nt64/fenv.S:199-237 | fegetround after fesetround(mode) returns the mode, which the x87 unit has as well |
| FenvRuns.RunReachesDefault | src/fenv/nt64/fenv.S:310-321 | in every run, fesetenv(FE_DFL_ENV) anywhere ends in control word 0x37f, tags 0xffff and MXCSR 0x1f80 |
| FenvRuns.DefaultStarts | crt/nt64/crt1.c:20-24 | which is an environment that a program starts with |
| FenvRuns.MaskedCarries | src/fenv/nt64/fenv.S:254-258 | whatever was masked, fegetenv leaves the flags and both rounding fields alone |
| FenvRuns.MaskedSameIff | src/fenv/nt64/fenv.S:255-255 | fegetenv changes nothing exactly when all six x87 exceptions are masked beforehand |
| FenvRuns.UnmaskedIsMasked | src/fenv/nt64/fenv.S:255-255 | a control word that fegetenv changes |
| FenvRuns.EventMasked | src/fenv/nt64/fenv.S:129-325 | every call and all other code keep the six masks of the hardware and of each stored environment in use |
| FenvRuns.ProgramTransparent | crt/nt64/crt1.c:20-24 | in every run from the control word that `_start` loads, no fegetenv changes any hardware state |
| LoaderNames.NamesFit | src/ldso/nt64/dynlink.c:51-58 | there are at most as many names as the counting pass counts |
| LoaderNames.ComponentsCount | src/ldso/nt64/dynlink.c:51-54 | what the counting pass counts is the number of components |
| LoaderNames.RejoinedIffClean | src/ldso/nt64/dynlink.c:70-86 | joining the names gives the list back, up to a trailing ':', exactly when it has no leading ':' and no "::" |
| LoaderNames.NamesAbsorb | src/ldso/nt64/dynlink.c:70-86 | for every list, the names are the components between its colons with each empty one turned into "." and absorbing the next, and an empty last one dropped |
| LoaderNames.NamesAreComponentsIff | src/ldso/nt64/dynlink.c:70-86 | the names are the components exactly when none of these is empty |
| LoaderNames.EmptyComponentIff | src/ldso/nt64/dynlink.c:71-75 | a component is empty exactly for an empty list, a ":" at an end, or "::" |
| LoaderNames.EmptyLastNameIsLost | src/ldso/nt64/dynlink.c:85-85 | a list whose empty last component disappears, although the names give the list back |
| LoaderNames.EmptyNameAbsorbs | src/ldso/nt64/dynlink.c:71-75 | a list whose empty component swallows the one behind it, with its components and its names |
| LoaderNames.UnendedIffEndsOpen | src/ldso/nt64/dynlink.c:75-85 | whether the scan looks behind its last NUL, told from the colons at the end of the list |
| LoaderPath.Strncpy | src/ldso/nt64/dynlink.c:47-47 | the buffer holds the text padded with NULs, or a cut text without one |
| LoaderPath.Count | src/ldso/nt64/dynlink.c:51-54 | counts one more than the colons, and leaves the buffer exactly when the text fills it |
| LoaderPath.EndName | src/ldso/nt64/dynlink.c:75-83 | the inner loop stops at the next ':' behind the first character and turns that one character into a NUL |
| LoaderPath.AddName | src/ldso/nt64/dynlink.c:71-83 | one round of the outer loop adds the next name, and the names already in the vector still read the same |
| LoaderPath.CompleteIsCString | src/ldso/nt64/dynlink.c:78-79 | a name behind which a NUL was written reads back as a C string |
| LoaderPath.CStringMeans | src/ldso/nt64/dynlink.c:78-79 | reading a C string is reading up to the first NUL |
| LoaderPath.Tokenize | src/ldso/nt64/dynlink.c:65-89 | terminates with the vector, read through the buffer after all writes, holding the names of the list and a null pointer, unless the last look leaves the buffer |
| LoaderPath.BuildVector | src/ldso/nt64/dynlink.c:45-89 | with the variable unset a vector whose first entry is null; otherwise the names in a vector that is large enough, or no memory (from 63 components on), or an access outside the buffer (never up to 2046 characters, always from 2048 on), each under its exact condition |
| LoaderPath.LongNameOverruns | src/ldso/nt64/dynlink.c:85-85 | a list of 2047 characters that makes the scan leave the buffer, and one of the same length that does not |
| LoaderLock.AdvancedGood | src/ldso/nt64/dynlink.c:103-111 | each step of a call keeps its bookkeeping, and takes or gives up a lock exactly where the code does |
| LoaderLock.StepKeepsInv | src/ldso/nt64/dynlink.c:41-111 | every step of every thread keeps the invariant of locks, calls and cancellation states |
| LoaderRuns.TableIsGuarded | src/ldso/nt64/dynlink.c:114-164 | in every run a thread inside by a named file or descriptor is alone there, holds the write lock, has stopped thread creation and has its own cancellation off |
| LoaderRuns.ReleasedInReverse | src/ldso/nt64/dynlink.c:103-104 | who has stopped thread creation holds the lock, and who holds the lock has stopped it but for the one step after taking and the one before giving up the lock |
| LoaderRuns.NoSelfWait | src/ldso/nt64/dynlink.c:41-43 | no thread waits for a lock it holds or for its own thread creation, however deep constructors nest calls, nor with its cancellation on |
| LoaderRuns.HookRunsUnlocked | src/ldso/nt64/dynlink.c:106-107 | the hook and the constructors run with neither lock held by their thread, and the hook is called with cancellation off |
| LoaderRuns.ExclusiveIffNoNullFile | src/ldso/nt64/dynlink.c:38-43 | given two threads, the table is exclusive in all runs exactly when no null file is passed |
| LoaderRuns.NullFilesMeet | src/ldso/nt64/dynlink.c:38-39 | the run in which two null files meet in the table |
| LoaderRuns.HooksMatchLoads | src/ldso/nt64/dynlink.c:92-107 | from any reachable state, loads and hook calls of a thread differ by the hook it still owes |
| LoaderRuns.OneHookPerLoad | src/ldso/nt64/dynlink.c:128-135 | in every run a thread calls the hook once for each module the loader gave it, nested calls included |
| LoaderRuns.CallGivesBack | src/ldso/nt64/dynlink.c:109-111 | when a call returns, nested or outermost, the thread's other calls and its cancellation state are as at the call |
| LoaderCalls.CallEntersOnce | src/ldso/nt64/dynlink.c:92-107 | any call that returns, from any reachable state and with any nested calls inside: dlopen tried its vector once and was in the loader once or never, as it had one or not; the others were in the loader once; the hook ran once for a module and not otherwise |
| LoaderCalls.VectorsMatchEntries | src/ldso/nt64/dynlink.c:92-94 | from any reachable state, vectors built and loader calls made in dlopen differ by the call under way |
| LoaderCalls.OneEntryPerVector | src/ldso/nt64/dynlink.c:92-94 | in every run a thread leaves the loader in dlopen as often as it built a vector, or once less while inside |
| LoaderCalls.EveryOutcome | src/ldso/nt64/dynlink.c:56-111 | every entry point can meet a failed allocation, a module or none, and returns |
| LoaderCalls.NullOutcome | src/ldso/nt64/dynlink.c:38-39 | so does a null file, in three steps |
| LoaderCalls.AnyDepth | src/ldso/nt64/dynlink.c:106-109 | constructors can nest calls to any depth and set cancellation as they like |
| LoaderCalls.CreationHoldsUp | src/ldso/nt64/dynlink.c:43-43 | a call waits for a thread creation under way, and goes on when it is done |
| LoaderProgress.NoDeadlock | src/ldso/nt64/dynlink.c:41-43 | while a call or a thread creation is under way, one of them can take a step |
| LoaderProgress.DrainIsBounded | src/ldso/nt64/dynlink.c:92-111 | each step of the calls under way uses up a bounded amount of work |
| LoaderProgress.EveryScheduleFinishes | src/ldso/nt64/dynlink.c:41-111 | from any reachable state one bound holds for all schedules of the calls under way, and a schedule cannot be prolonged exactly when all have returned and both locks are free, failed allocation and failed loads included |
| LoaderProgress.SomeScheduleFinishes | src/ldso/nt64/dynlink.c:41-111 | from any reachable state there is a schedule that ends so |
| Quoting.StrippedSubstituted | configure:1374-1374 | dropping trailing newlines and escaping quotes commute |
| Quoting.ReadQuoted | configure:1374-1374 | a quoted argument reads back as one word, less its trailing newlines |
| Quoting.ReadRendered | configure:1374-1377 | the string built so far reads back as the arguments kept so far, in order |
| Quoting.LineReadsBack | configure:867-867 | the evaluated line has the function's name and one field for each kept argument |
| Quoting.StrippedIs | configure:1374-1374 | stripping takes the newlines at the end, all of them and nothing else |
| Quoting.LineExactIff | configure:867-867 | the script gets exactly the kept arguments if and only if none of them ends in a newline |
| Quoting.TrailingNewlineIsLost | configure:1374-1374 | an argument that arrives without the newline it ended in |
| Quoting.Collect | configure:1372-1383 | the loop keeps what no other branch takes so that it reads back in order, and stops at the first such argument when the project has no script |
| Quoting.UnknownConcat | configure:1056-1057 | the kept arguments of two lists are those of the first and then those of the second |
| Quoting.UnknownOne | configure:1372-1373 | a single argument is kept unless another branch takes it |
| Quoting.QuotedPlain | configure:1374-1374 | an argument without a single quote and without a newline at its end is written between single quotes |
| Quoting.QuotedQuote | configure:1374-1374 | how a single quote is written |
| Quoting.SingleQuotesAreLiteral | configure:867-867 | what the reader is: between single quotes everything but a single quote stands for itself |
| Quoting.BackslashIsLiteral | configure:867-867 | and so does what follows a backslash, but for a newline |
| Quoting.DollarIsNotLiteral | configure:867-867 | while an unquoted dollar sign does not |
| StackBounds.ClearBelow | src/thread/nt64/clone.c:78-78 | masking with the complement of 15 is rounding down, bit by bit at any width |
| StackBounds.SetBelow | src/thread/nt64/clone.c:98-99 | setting or flipping the low bits, as arithmetic |
| StackBounds.RoundUpIs | src/env/nt64/__copy_tls.c:27-30 | the three assignments give the one word that is the next multiple of 16, and zero when no word is |
| StackBounds.RoundedUpIff | src/thread/nt32/clone.c:93-95 | rounding up gives the next multiple of 16 for all words but the last 15, and zero for these, where no word is one |
| StackBounds.PtRegs.Clone | src/thread/nt64/clone.c:71-112 | the registers, the child stack rounded down to 16, three zeros for flags 0x4111, and otherwise base rounded down, limit rounded up and bottom exact, for every thread that does not wrap around |
| StackBounds.WordSizes | src/thread/nt32/clone.c:84-95 | the two widths have words below 2 to the 32 and 2 to the 64 |
| StackBounds.BoundsInOrderIff | src/thread/nt32/clone.c:84-100 | for every thread that does not wrap around, the exact condition for bottom <= limit <= base <= top of the stack, which 15 bytes of stack always meet |
| StackBounds.TinyStackOutOfOrder | src/thread/nt64/clone.c:92-104 | at any address, a stack of one byte whose published bounds are out of order |
| StackBounds.Threads.CopyTls | src/env/nt64/__copy_tls.c:27-35 | the record is at the next multiple of 16, or at zero when no word is, and its `dtv` alone is cleared |

## Left out

- The nt32 cancellable system call (src/thread/nt32/syscall_cp.s), dlsym.s and realpath, accept, vfork, fchmodat: they depend on calling conventions or code outside the repository, or are one-line calls.
- The tail of sigsetjmp, the loader, pthread locks, `__inhibit_ptc`, the system call table and the constructors: foreign code. The locks exclude one another, the tail stores at most `_NSIG/8` bytes at `__ss`, constructors may do anything a program may, and everything else is arbitrary.
- Instruction encodings: every instruction is one unit of code long, and code is not in data memory.
- `__syscall0` to `__syscall5` and the message of `__syscall_alert`: the same table lookup with fewer arguments, and logging.
- CancellableSyscall.CancellableCall: what a table entry returns is an arbitrary function of its six arguments; what it does to memory is not modelled.
- Asynchronous signals, delivery of unmasked floating-point exceptions, and floating-point arithmetic itself: between calls, other code raises arbitrary flags and keeps the control fields.
- Fenv.Feraiseexcept: a signal handler that runs between the store and the load below the stack pointer is not modelled.
- The two summary bits of the x87 status word are derived when it is read, and `fldenv` of a structure derives them again.
- Fenv.Feclearexcept: requires an MXCSR without reserved bits, as the hardware always does.
- The strdup branch of dlopen (src/ldso/nt64/dynlink.c:49-49), which is never taken, and getenv, which is a parameter.
- src/ldso/nt32/dynlink.c: the same code as nt64, so one model covers both; dlclose, dlsym, dladdr, dlinfo and dlerror are one-line forwarders.
- Fairness and priorities of lock waiters: any waiting thread may be next, and any order is covered.
- The rest of configure: option parsing is a predicate that tells which arguments other branches take, and `verify_safe_path`, which can end the script, is not part of the model.
- Quoting.Collect: an unquoted character with a special meaning other than blanks, quotes and backslashes makes the line unreadable for the model; the printer never leaves one unquoted.
- StackBounds.PtRegs.Clone: the widening of `flags` to a word and the registers that the routine leaves uninitialised are not modelled.
- The thread pointer lookup in pthread_arch.h, PE import sections, CFI directives, headers of constants and makefiles.
