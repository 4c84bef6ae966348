# Verified models of a computer engineering course repository

This project models the five most intricate programs of the repository in Dafny and proves what each of them is
for. The programs are independent, except that the renderer draws the rooms of the adventure world; each has its own
modules.

* **A multicycle RV32I processor** (`RvIsa`, `RvCore`, `RvRefine`, `Clock`, `MemoryBus`, `RvBench`, `RvLegs`, `RvLaws`,
  `RvRun`, `RvSoc`; `Binary`, `RvNumbers`, `RvFields`, `RvFormats`, `RvMeaning`). The twenty-state controller, the datapath and the memory bench are one clocked step function,
  written once as a function and once as a class whose registers are updated at every edge. The RISC-V User-Level ISA,
  version 2.2, chapter 2, is a separate one-instruction step. For every program, every number of instructions and every
  memory latency the visits of the first fetch state are exactly the architectural states of the instruction set, in
  order, at clocks that are given exactly. What an instruction does is also told a second time, in integers alone: the
  fields of its word as digits of a number, its result modulo 2 to the 32nd, digit by digit or in two's complement, and
  the bytes it reads and writes; between any two successive visits the program performs exactly that. The register forms of SUB, SRA, SLT and SLTU do not follow the standard in
  this design; the exact operands on which they agree with it are proved.
* **The mode X scrolling renderer** (`BuildMap`, `ModeX`, `Photo`, `Adventure`). The build buffer is an incremental
  cache of the visible window: four interleaved planes in reverse order that slide inside a larger buffer. Over every
  run of pans, room entries and redraws each frame shown is the simple rendering of the scene, pixel by pixel, and each
  pan displaces the picture by exactly the speed or just to the photo's edge.
* **The adventure world** (`WorldMap`, `WorldGame`, `WorldProofs`, `WorldPlaces`, `WorldHeap`, `WorldEffects`,
  `WorldCrafts`, `WorldWalks`, `WorldLaws`, `WorldFish`, `Itinerary`, `WorldWin`, `WorldLost`, `GameLoop`). Rooms hold
  their objects in intrusive linked lists; commands move objects, set flags and open regions. Over every game the lists
  represent the locations exactly, the forms of GPS, robot and battery stay consistent, and every win has earned
  everything. Each command has a law of its effect and of all that it leaves alone, told by locations and
  accomplishments. A complete walkthrough shows that the game can be won, and a family of states is given from which it
  no longer can. `GameLoop` puts world and renderer together: every frame of every game is the rendering of the room
  that the rules give, with each object at its due place.
* **The Tux line discipline** (`TuxFraming`, `TuxLineDiscipline`). Two byte rings and a packet framer that keeps up to
  two bytes between calls; it finds exactly the packets of the whole stream, however the stream is cut up.
* **Process lifecycle, scheduler and file reading of the teaching kernel** (`KernelModel`, `KernelRuns`,
  `KernelContexts`, `KernelSched`, `FileSystem`, `FileLayout`). The run queue, page-directory present bits and parent
  links over every sequence of execute, halt and timer tick after boot; round-robin fairness; every process resumes with
  the context it was interrupted with; and the block reader of the read-only file system, which gives back every file
  laid out on an image, whatever its blocks, and whose one-byte overrun at the end of a file is characterised exactly.

`dafny verify dfyconfig.toml` checks everything.

## Modelling decisions

* Processor: words are 32-bit vectors. Memory bytes and registers that were never written read as zero. The two
  undefined branch codes compare as false. The bench's delay is an arbitrary number per request instead of the fixed
  parameter; when a monitor's condition and the answering event coincide the monitor wins. A run starts in `fetch1`,
  because the controller has no reset. The program counter is word-aligned and accesses are naturally aligned.
* Renderer: the line callbacks are the two fillers of `photo.c`. Right shifts of coordinates are Euclidean division,
  which is what an arithmetic shift computes. Video memory is one array of four planes; a frame is video memory right
  after the screen has been shown, before the status bar is drawn over the first rows of page zero. A room's objects
  are given as the sequence their list holds.
* World: random choices are parameters: a coin and a place per command, a place per object of the build.
  Accomplishment bits are boolean fields. Room photos matter only where they are swapped. Positions of objects in
  photos do not influence the rules; the linked representation keeps them, and the frames show them.
* Kernel: each of boot tick, tick, execute and halt is one atomic step; `file_to_mem` enables interrupts inside the
  section that execute protects, so atomicity is an assumption. The three boot shells exist before any user command.
  Execute stands for a program file that is found and loads; one that is not found changes nothing. The saved context
  of a process that has never been interrupted is taken as zero; it is uninitialised in the program. The queue array
  has sixteen entries of which only the first six are used.
* World, a promise that fails: what is dropped can be got back by its name from the same spot, except at the opened car
  with its battery still in it, where any `get` takes the battery. The exact condition and a game that runs into it are
  proved.
* File system: addresses and positions are unbounded. The image starts at a page boundary, as the boot loader places
  it; the reader's test for the end of a block relies on that.

## Model

| member | source | states |
|---|---|---|
| `RvIsa.DecodeEncode` | ECE411/mp1/README.rst:137 | Decoding the encoding of any instruction of the base set gives the instruction back. |
| `RvIsa.EncodeDecode` | ECE411/mp1/README.rst:137 | Every word that decodes is the encoding of what it decodes to, so the two maps are inverse. |
| `RvFormats.EncodeValue` | ECE411/mp1/hdl/rv32i_types.sv:15-60 | The number of an instruction's word is that of its format: opcode, registers, function codes and immediate bits, each at its digit. |
| `RvFormats.DecodeValue` | ECE411/mp1/hdl/ir.sv:24-34 | A word decodes to an instruction if and only if its number is the one the formats give that instruction. |
| `RvNumbers.PlusValue` | ECE411/mp1/hdl/alu.sv:13 | The sum of two words is the sum of their numbers modulo 2 to the 32nd. |
| `RvNumbers.MinusValue` | ECE411/mp1/hdl/alu.sv:16 | The difference of two words is the difference of their numbers modulo 2 to the 32nd. |
| `RvNumbers.XorBits` | ECE411/mp1/hdl/alu.sv:17 | Digit n of the exclusive or is set exactly when one of the two digits n is and the other is not, for all n below 32. |
| `RvNumbers.OrBits` | ECE411/mp1/hdl/alu.sv:19 | Digit n of the disjunction is set exactly when a digit n is. |
| `RvNumbers.AndBits` | ECE411/mp1/hdl/alu.sv:20 | Digit n of the conjunction is set exactly when both digits n are. |
| `RvNumbers.ShiftLeftValue` | ECE411/mp1/hdl/alu.sv:14 | A left shift multiplies by the power of two, modulo 2 to the 32nd. |
| `RvNumbers.ShiftRightValue` | ECE411/mp1/hdl/alu.sv:18 | A logical right shift is the quotient by the power of two. |
| `RvNumbers.ShiftRightArithValue` | ECE411/mp1/hdl/alu.sv:15 | An arithmetic right shift is the quotient of the signed number, rounded down. |
| `RvNumbers.LessValue` | ECE411/mp1/hdl/cmp.sv:9-19 | The unsigned order is the order of the numbers. |
| `RvNumbers.SignedLessValue` | ECE411/mp1/hdl/cmp.sv:9-19 | The signed order is the order of the numbers in two's complement. |
| `RvFields.SignExtend12Value` | ECE411/mp1/hdl/ir.sv:27-28 | The extended immediate has the signed value of its twelve bits. |
| `RvFields.SignExtend8Value` | ECE411/mp1/hdl/datapath.sv:165-195 | An extended byte has the signed value of its eight bits. |
| `RvFields.SignExtend16Value` | ECE411/mp1/hdl/datapath.sv:165-195 | An extended half word has the signed value of its sixteen bits. |
| `RvFields.SignExtend20Value` | ECE411/mp1/hdl/ir.sv:31 | The extended jump field has the signed value of its twenty bits. |
| `RvFields.BranchOffsetValue` | ECE411/mp1/hdl/ir.sv:29 | The branch offset is twice the signed value of its twelve bits. |
| `RvFields.JumpOffsetValue` | ECE411/mp1/hdl/ir.sv:31 | The jump offset is twice the signed value of its twenty bits. |
| `RvFields.UpperImmValue` | ECE411/mp1/hdl/ir.sv:30 | The upper immediate is 4096 times its twenty bits. |
| `RvFields.NextPcValue` | ECE411/mp1/hdl/datapath.sv:152 | The next program counter is four more, modulo 2 to the 32nd. |
| `RvFields.EvenTargetValue` | ECE411/mp1/hdl/datapath.sv:154 | The indirect target is the largest even number not above the sum. |
| `RvFields.AmountValue` | ECE411/mp1/hdl/alu.sv:14-18 | The shift amount is the remainder of the operand by 32. |
| `RvFields.Join4Value` | ECE411/mp1/hdl/datapath.sv:165-195 | A word read from memory is the number of its four bytes, the first one lowest. |
| `RvFields.BytesValue` | ECE411/mp1/hdl/datapath.sv:132-139 | The bytes stored are the digits of the word to the base 256. |
| `RvMeaning.RegResultMeans` | ECE411/mp1/hdl/alu.sv:12-21 | For all operands the standard's register result is the number its operation delivers on the operands' numbers. |
| `RvMeaning.ImmResultMeans` | ECE411/mp1/hdl/control.sv:198-222 | The same for the immediate forms. |
| `RvMeaning.ExecuteMeans` | ECE411/mp1/README.rst:137 | Every step of the instruction set, jumps, branches, loads and stores included, has the meaning the instruction has in numbers: program counter, destination register, bytes of memory, all else unchanged. |
| `RvMeaning.MeansOnce` | ECE411/mp1/README.rst:137 | That meaning leaves only one state, so it describes the step completely. |
| `RvRefine.Immediates` | ECE411/mp1/hdl/ir.sv:27-31 | The five immediate decoders deliver the sign-extended immediates of the five instruction formats for every word. |
| `RvRefine.CmpAgrees` | ECE411/mp1/hdl/cmp.sv:9-19 | Each branch code makes the comparator decide as the standard's branch does, for all operands. |
| `RvRefine.SubAgreesExactly` | ECE411/mp1/hdl/control.sv:296-300 | The register form of SUB, which adds, meets the standard exactly when the second operand is 0 or 0x80000000. |
| `RvRefine.SraAgreesExactly` | ECE411/mp1/hdl/control.sv:296-300 | The register form of SRA, which shifts logically, meets the standard exactly when the first operand is not negative or the amount is 0. |
| `RvRefine.SltAgreesExactly` | ECE411/mp1/hdl/control.sv:296-300 | The register form of SLT, which shifts arithmetically, meets the standard exactly on non-negative first operands whose highest one is at the shift amount (when less) or below it (when not). |
| `RvRefine.SltuAgreesExactly` | ECE411/mp1/hdl/control.sv:296-300 | The register form of SLTU, which subtracts, meets the standard exactly on equal operands and on 0 against 0xffffffff. |
| `RvRefine.RegAgreesExactly` | ECE411/mp1/hdl/control.sv:296-300 | For each register operation, the operands on which hardware and standard agree, both directions. |
| `RvRefine.FaultyExactly` | ECE411/mp1/hdl/control.sv:296-300 | A register operation is right for all operands exactly when it is not SUB, SRA, SLT or SLTU. |
| `RvRefine.ConformsExactly` | ECE411/mp1/hdl/control.sv:183-316 | The processor's effect of an instruction is the standard's if and only if the instruction conforms in that state. |
| `RvRefine.LoadMuxLoads` | ECE411/mp1/hdl/datapath.sv:165-195 | The load multiplexer on the addressed word delivers the addressed byte, half or word, extended, for every aligned address. |
| `RvRefine.StoreThroughStores` | ECE411/mp1/hdl/control.sv:258-279 | Lane shift, byte enables and the bench's write together store exactly the addressed bytes, for every aligned address. |
| `RvRefine.StoredByte` | ECE411/mp1/hvl/memory.sv:51-65 | After a store every byte of memory is the stored one at the covered addresses and the old one elsewhere. |
| `RvRefine.StoreThenLoad` | ECE411/mp1/hdl/datapath.sv:130-193 | A load after a store of the same width returns the stored value sign- or zero-extended. |
| `RvRefine.Dispatched` | ECE411/mp1/hdl/control.sv:331-353 | The decode state sends every instruction to the state that executes it. |
| `RvRefine.RetireEdge` | ECE411/mp1/hdl/control.sv:188-316 | Every instruction without memory access changes program counter and registers in one edge and returns to fetch. |
| `RvRefine.ValueOf` | ECE411/mp1/hdl/datapath.sv:142-195 | What that edge writes is the machine's step: next program counter, destination register, memory untouched. |
| `MemoryBus.ReadInvStep` | ECE411/mp1/hvl/memory.sv:104-143 | While a held read request is pending the bench counts down without an error until it answers with the buffered word. |
| `MemoryBus.WriteInvStep` | ECE411/mp1/hvl/memory.sv:51-101 | While a held write request is pending the bench counts down without an error, and the memory changes at exactly the event that answers, by what the port asks to be stored. |
| `RvBench.WriteTwice` | ECE411/mp1/hvl/memory.sv:61-64 | Writing the same enabled bytes of a word again changes nothing more, so an answered write can be recognised in memory. |
| `RvBench.PortHeld` | ECE411/mp1/hdl/control.sv:188-279 | Without a response a requesting state repeats itself with the same address, data, strobes and byte enables. |
| `RvBench.BusInvStep` | ECE411/mp1/hvl/memory.sv:24-143 | Every clock keeps the bus invariant between controller state, port and bench phase. |
| `RvBench.NoProtocolError` | ECE411/mp1/hvl/memory.sv:51-143 | Over every run and all latencies none of the bench's error conditions fires. |
| `RvBench.ResponseMeetsRequest` | ECE411/mp1/hdl/control.sv:322-361 | A response is high only while a request is on the port; a read is answered with the word at the requested address, a write with its enabled bytes in memory; the next edge takes the controller on and lowers the response. |
| `RvLegs.ReadRequest` | ECE411/mp1/hvl/memory.sv:104-143 | A read request takes exactly its latency plus two clocks, leaves the addressed word in the data register and everything else unchanged, and is away from fetch1 throughout. |
| `RvLegs.WriteRequest` | ECE411/mp1/hvl/memory.sv:51-101 | A write request takes exactly its latency plus two clocks, stores what the port shows and leaves everything else unchanged, and is away from fetch1 throughout. |
| `RvLegs.FetchLeg` | ECE411/mp1/hdl/control.sv:190-196 | From the first edge of a fetch the fetched word is in the instruction register at decode after exactly its latency plus three clocks, none of them in fetch1. |
| `RvLegs.LoadLeg` | ECE411/mp1/hdl/control.sv:232-250 | From its address state a load takes exactly its latency plus four clocks, none of them in fetch1, and ends with the edge that takes the loaded word on. |
| `RvLegs.StoreLeg` | ECE411/mp1/hdl/control.sv:252-283 | From its address state a store takes exactly its latency plus four clocks, none of them in fetch1, and memory is then what the port stored. |
| `RvLegs.RunsToEnd` | ECE411/mp1/hdl/control.sv:183-362 | Fetch, decode and execution joined: an instruction ends after exactly the stated number of clocks, and no clock strictly inside is in fetch1, for any datapath that obeys the laws of the controller's edges. |
| `RvLaws.LawsHold` | ECE411/mp1/hdl/control.sv:183-362 | The processor with its bench obeys those laws: edges without a request, read and write requests, dispatch, executing and completing edges. |
| `RvRun.FinishedArrives` | ECE411/mp1/hdl/control.sv:183-316 | What an instruction leaves in core and memory is the machine's step on the architectural state, at an instruction boundary. |
| `RvRun.OneInstruction` | ECE411/mp1/hdl/control.sv:183-362 | From one visit of fetch1 to the next the system performs the machine's step of the fetched instruction: fetch1 is entered again after exactly the stated number of clocks and at no clock before. |
| `RvRun.StandardInstruction` | ECE411/mp1/hdl/control.sv:183-362 | On a conforming instruction that step is the standard's, and again no clock strictly inside is in fetch1. |
| `RvRun.ProgramRefines` | ECE411/mp1/hdl/control.sv:183-362 | For every program, instruction count and latency the clocked system arrives at the instruction set's state, at an exact clock. |
| `RvRun.ProgramMeans` | ECE411/mp1/hdl/control.sv:183-362 | Between any two successive visits of fetch1 of such a run the system performs one instruction: the four bytes at the program counter are the number of its format, and program counter, registers and memory change by its meaning in numbers. |
| `RvRun.VisitsAreInstructions` | ECE411/mp1/hdl/control.sv:183-368 | A clock of such a run is in fetch1 if and only if some k-th instruction ends there, and then program counter, registers and memory are the k-th state of the instruction set. |
| `RvRun.VisitsInOrder` | ECE411/mp1/hdl/control.sv:183-368 | Later instructions end at later clocks, so the visits of fetch1 are the states of the program, once each and in order. |
| `RvRun.BoundaryIsSafe` | ECE411/mp1/hvl/memory.sv:24-143 | An instruction boundary satisfies the bus invariant, so no run from one can violate the protocol. |
| `RvRun.UnknownRefetches` | ECE411/mp1/hdl/control.sv:351-351 | On an opcode outside the implemented set the processor refetches for ever: after any number of laps it is at the same boundary with the same architectural state, at the summed clock. |
| `RvSoc.Soc.constructor` | ECE411/mp1/hvl/memory.sv:16-21 | The start is an instruction boundary with empty registers and the given memory image. |
| `RvSoc.Soc.CoreEdge` | ECE411/mp1/hdl/control.sv:322-368 | All registers of the processor load at once; a core with a request on its port holds the port and its state until the response and withdraws the request with it; the bench is not touched. |
| `RvSoc.Soc.MemoryEvent` | ECE411/mp1/hvl/memory.sv:24-143 | For a held read no error is raised, memory stays, and a response carries the requested word; for a held write no error is raised and memory changes at exactly the event that raises the response, by the enabled bytes; the processor is not touched. |
| `RvSoc.Soc.Tick` | ECE411/mp1/hdl/control.sv:364-368 | Processor and bench sample each other before either moves: one clock is one step of the system and keeps the bus invariant. |
| `RvSoc.Soc.Simulate` | ECE411/mp1/hdl/control.sv:364-368 | Any number of clocks is the run to which the refinement applies, and from a state within the protocol no error flag is ever up. |
| `RvSoc.RunProgram` | ECE411/mp1/hdl/control.sv:364-368 | From reset, for every program image, instruction count and latency, the design run for the program's clocks is at a boundary with the standard's program counter, registers and memory, and no monitor has fired. |
| `Clock.SimulatesRuns` | ECE411/mp1/hdl/control.sv:364-368 | A machine that simulates every abstract step in its cost simulates every abstract run in the summed cost. |
| `Clock.VisitsAreSteps` | ECE411/mp1/hdl/control.sv:364-368 | If the marked states of a machine occur only at the ends of its strides, the marked states of every run are exactly the abstract states, in order. |
| `Clock.StepOfRun` | ECE411/mp1/hdl/control.sv:364-368 | Each step of an abstract run leads from one marked state of the machine to the next. |
| `Clock.IterateKeeps` | ECE411/mp1/hdl/control.sv:364-368 | What every clock keeps, every run keeps. |
| `BuildMap.OffInside` | ECE391/mp2/modex.c:419-422 | Every pixel of a window lies between the window's first and last byte. |
| `BuildMap.OffInjective` | ECE391/mp2/modex.c:56-71 | Within a window distinct pixels have distinct bytes, for every alignment of the window. |
| `BuildMap.RecentredFits` | ECE391/mp2/modex.c:432-433 | The re-centred origin makes any window fit into the buffer. |
| `BuildMap.CommonRange` | ECE391/mp2/modex.c:448-474 | The bytes copied between two overlapping windows lie inside both of them. |
| `BuildMap.CommonPixel` | ECE391/mp2/modex.c:448-474 | Every pixel of both windows lies among the bytes copied. |
| `BuildMap.Rotation` | ECE391/mp2/modex.c:513-526 | The plane rotation of the screen copy is the inverse of the pixel map, for every alignment. |
| `ModeX.Display.constructor` | ECE391/mp2/modex.c:299-311 | The window starts at the origin in the middle of the buffer, between two intact fences. |
| `ModeX.Display.CopyOverlapping` | ECE391/mp2/modex.c:484-489 | The copy moves the old bytes whatever the overlap, in either direction, and changes nothing else. |
| `ModeX.Display.Slide` | ECE391/mp2/modex.c:471-489 | Pixels whose bytes are moved along with the origin keep their values; the fences stay intact. |
| `ModeX.Display.MoveCommon` | ECE391/mp2/modex.c:437-489 | After re-centring, every pixel common to the old and the new window has its old value. |
| `ModeX.Display.SetViewWindow` | ECE391/mp2/modex.c:394-490 | In all three branches the new window fits, common pixels keep their values, and the fences stay intact. |
| `ModeX.Display.Poke` | ECE391/mp2/modex.c:673-673 | Writing one pixel of the window changes no other pixel of it and no fence byte. |
| `ModeX.Display.PutRow` | ECE391/mp2/modex.c:659-678 | A row write changes exactly that row of the window, to the given pixels. |
| `ModeX.Display.PutColumn` | ECE391/mp2/modex.c:610-626 | A column write changes exactly that column of the window, to the given pixels. |
| `ModeX.Display.CopyImage` | ECE391/mp2/modex.c:1028-1044 | One plane's 14560 bytes arrive on the page; no other byte of video memory changes. |
| `ModeX.Display.ShowScreen` | ECE391/mp2/modex.c:502-534 | The page flips and its rows 0 to 181 show exactly the window; video memory elsewhere is unchanged. |
| `Photo.TopmostWins` | ECE391/mp2/photo.c:127-164 | The composite is the last object in the list that covers the point, or the photo when none does. |
| `Photo.PaintRow` | ECE391/mp2/photo.c:134-163 | Painting an object over a row changes exactly the pixels it covers, for every clipping. |
| `Photo.PaintColumn` | ECE391/mp2/photo.c:212-241 | Painting an object over a column changes exactly the pixels it covers, for every clipping. |
| `Photo.FillHoriz` | ECE391/mp2/photo.c:105-165 | A row filled from any x, inside the photo's height, is the composite at every pixel. |
| `Photo.FillVert` | ECE391/mp2/photo.c:183-243 | A column filled from any y, inside the photo's width, is the same composite, so rows and columns agree where they cross. |
| `Adventure.StepInside` | ECE391/mp2/adventure.c:495-608 | Every command keeps the window inside the photo, at any panning speed. |
| `Adventure.RunInside` | ECE391/mp2/adventure.c:495-608 | So does every run. |
| `Adventure.PanShifts` | ECE391/mp2/adventure.c:495-608 | A pan displaces the picture on the screen, against the key, by exactly the speed of that direction, or by less just to the photo's edge; scene and speeds stay. |
| `Adventure.OtherwiseShows` | ECE391/mp2/adventure.c:237-255 | A room entered is shown from its corner, a changed one from where the view was, and without a command the picture stays. |
| `Adventure.RunPans` | ECE391/mp2/adventure.c:309-312 | In every run of the event loop each pan displaces the frame before it so. |
| `Adventure.Game.constructor` | ECE391/mp2/adventure.c:474-482 | The game starts at the corner of the first room with both speeds as given. |
| `Adventure.Game.DrawHorizLine` | ECE391/mp2/modex.c:646-682 | A row in range becomes the rendered one and right pixels stay right; a row out of range is refused with -1. |
| `Adventure.Game.DrawVertLine` | ECE391/mp2/modex.c:597-630 | A column in range becomes the rendered one and right pixels stay right; a column out of range is refused with -1. |
| `Adventure.Game.RedrawRoom` | ECE391/mp2/adventure.c:619-628 | Afterwards every pixel of the window is the rendered one. |
| `Adventure.Game.MovePhotoDown` | ECE391/mp2/adventure.c:495-513 | The view moves up by the clamped speed and the whole window stays rendered though only new rows are drawn. |
| `Adventure.Game.MovePhotoLeft` | ECE391/mp2/adventure.c:526-545 | The view moves right by the clamped speed and the whole window stays rendered though only new columns are drawn. |
| `Adventure.Game.MovePhotoRight` | ECE391/mp2/adventure.c:558-576 | The view moves left by the clamped speed and the whole window stays rendered though only new columns are drawn. |
| `Adventure.Game.MovePhotoUp` | ECE391/mp2/adventure.c:589-608 | The view moves down by the clamped speed and the whole window stays rendered though only new rows are drawn. |
| `Adventure.Game.EnterRoom` | ECE391/mp2/adventure.c:237-253 | The view is at the corner and the whole window is rendered. |
| `Adventure.Game.Show` | ECE391/mp2/adventure.c:255-255 | The frame shown is the simple rendering of the view, on the other page. |
| `Adventure.Game.Handle` | ECE391/mp2/adventure.c:307-332 | Each command has the effect of the simple model on the view, a redraw with new speeds included; entering a room is left to the next turn. |
| `Adventure.Game.Loop` | ECE391/mp2/adventure.c:203-339 | For every allowed run, frame k is the rendering of the view after k events, pages alternate, and the fences stay intact. |
| `WorldMap.LeftIsEasy` | ECE391/mp2/world.c:224-362 | Every left exit leads to a real room and not into a harder region. |
| `WorldMap.RightIsEasy` | ECE391/mp2/world.c:224-362 | Every right exit leads to a real room and not into a harder region. |
| `WorldMap.EnterIsEasy` | ECE391/mp2/world.c:224-362 | Every fixed door leads to a real room and not into a harder region. |
| `WorldWalks.EverittRows` | ECE391/mp2/world.c:225-261 | The exits of backpack, Everitt and Green Street, row by row. |
| `WorldWalks.QuadRows` | ECE391/mp2/world.c:263-293 | The exits of Bardeen Quad and around. |
| `WorldWalks.NorthRows` | ECE391/mp2/world.c:295-331 | The exits of CSL and around. |
| `WorldWalks.FarRows` | ECE391/mp2/world.c:333-361 | The exits of the rest of the world. |
| `WorldWalks.ItemRows` | ECE391/mp2/world.c:383-404 | Name, first room and place of every object. |
| `WorldGame.FoundExists` | ECE391/mp2/world.c:480-496 | What a search by name finds is an object located in that room. |
| `WorldProofs.WithoutSplit` | ECE391/mp2/world.c:702-708 | Unlinking an object keeps the order of the others. |
| `WorldProofs.RemoveKeeps` | ECE391/mp2/world.c:693-713 | Removal keeps every list duplicate-free and exact, and touches no other room's list. |
| `WorldProofs.InsertKeeps` | ECE391/mp2/world.c:512-526 | Insertion puts the object first, keeps every list exact, and touches no third room's list. |
| `WorldProofs.EnterKeeps` | ECE391/mp2/world.c:1077-1163 | Doors, locked doors included, keep the rules of progress. |
| `WorldProofs.DoKeeps` | ECE391/mp2/world.c:1316-1349 | Winning is possible only after eating and luring Tux. |
| `WorldProofs.DropKeeps` | ECE391/mp2/world.c:1398-1433 | Dropping keeps the rules of progress, from the backpack view too; its effect is stated by WorldEffects.DropEffect. |
| `WorldProofs.GetKeeps` | ECE391/mp2/world.c:1542-1576 | Getting keeps the rules of progress: the desk's book, the car's battery, Tux and everything else. |
| `WorldProofs.BuyKeeps` | ECE391/mp2/world.c:1215-1259 | Buying keeps the rules of progress. |
| `WorldProofs.ChargeKeeps` | ECE391/mp2/world.c:1271-1304 | Charging keeps exactly one battery form, and needs the flashed robot. |
| `WorldProofs.FixKeeps` | ECE391/mp2/world.c:1446-1483 | Fixing keeps exactly one GPS form, and needs the suit. |
| `WorldProofs.FlashKeeps` | ECE391/mp2/world.c:1496-1529 | Flashing keeps exactly one robot form. |
| `WorldProofs.GoKeeps` | ECE391/mp2/world.c:1589-1670 | Driving reaches Allerton and Willard only with what they require. |
| `WorldProofs.InstallKeeps` | ECE391/mp2/world.c:1683-1737 | Installing the battery ends the battery phase and closes the hood; installing the card needs the trip to Allerton. |
| `WorldProofs.LookKeeps` | ECE391/mp2/world.c:1757-1774 | The backpack view always has a real room to return to. |
| `WorldProofs.UseKeeps` | ECE391/mp2/world.c:1816-1879 | Using the car opens the battery phase and the hood; using the fish needs the flight. |
| `WorldProofs.WearKeeps` | ECE391/mp2/world.c:1892-1914 | Wearing the suit keeps the rules of progress. |
| `WorldProofs.LogicKept` | ECE391/mp2/world.c:1039-1914 | Every command keeps all rules: regions, dependencies, one form each, battery phases, car photo. |
| `WorldEffects.SameExactly` | ECE391/mp2/world.c:489 | Words are the same if and only if they are letter by letter, upper and lower case alike. |
| `WorldEffects.FindsFirst` | ECE391/mp2/world.c:480-496 | The search finds the first object of that name in the list, and fails only if there is none. |
| `WorldEffects.DropEffect` | ECE391/mp2/world.c:1398-1433 | If an object of that name is carried, one goes, first in the list, to the room the player stands in, which is the one the backpack view goes back to while that is open; no other location and nothing else changes; otherwise nothing at all. |
| `WorldEffects.GetBookEffect` | ECE391/mp2/world.c:626-640 | At the reserve desk the C book is handed to the fed and the other one to the hungry, while it is there; nothing else changes. |
| `WorldEffects.GetBatteryEffect` | ECE391/mp2/world.c:642-646 | At the open car any get takes the battery, now an empty one, whatever was asked for; nothing else changes. |
| `WorldEffects.GetEffect` | ECE391/mp2/world.c:1542-1576 | Elsewhere the object of that name put last into the room is carried, unless it is Tux, not yet lured; no other location and nothing else changes; without one nothing happens. |
| `WorldEffects.GetBackExactly` | ECE391/mp2/world.c:1398-1576 | After a drop, getting that name from the same spot carries an object of that name if and only if the player is not at the open car with its battery in it, or asks for the battery. |
| `WorldFish.DroppedFishIsNotGotBack` | ECE391/mp2/world.c:642-646 | A game from the start in which the fish is dropped, asked for again and not got back. |
| `WorldEffects.DropThroughBackpack` | ECE391/mp2/world.c:1426-1431 | Closing the backpack view before or after dropping gives the same world. |
| `WorldEffects.GetThroughBackpack` | ECE391/mp2/world.c:1552-1556 | Closing the backpack view before or after getting gives the same world. |
| `WorldCrafts.CraftEffect` | ECE391/mp2/world.c:1215-1914 | Buying and drinking the Dew, wearing the suit, charging, fixing, flashing, installing battery and card, opening the car and luring Tux follow one table of recipes: with the room and the objects at hand right, exactly the listed objects are used up, the product appears in its room and the accomplishment is gained; otherwise nothing changes. |
| `WorldLaws.NoCraft` | ECE391/mp2/world.c:1215-1914 | The same verbs with any other word change nothing, except that yogurt feeds whoever buys it at Cocomero. |
| `WorldWalks.WayTaken` | ECE391/mp2/world.c:1039-1201 | Every way open to a player, by exits, locked doors, car, backpack or win, is taken, and nothing but the player's place, the door remembered and by the coin the bridge photo changes. |
| `WorldWalks.NoWay` | ECE391/mp2/world.c:1039-1803 | Where no way is open a moving command changes nothing, except that sighing at the ruins takes the appetite. |
| `WorldWalks.LookTwice` | ECE391/mp2/world.c:1757-1774 | Opening the backpack and closing it gives the world back, but for the door remembered. |
| `WorldLaws.EveryChangeExplained` | ECE391/mp2/world.c:1039-1914 | For every command: each accomplishment afterwards is one from before or gained by its own deed, both directions; every object whose location differs was crafted, used up, dropped, got or handed out; the player has taken an open way. |
| `WorldLaws.WinsExactly` | ECE391/mp2/world.c:1316-1349 | A command wins if and only if it does the assignment in the laboratory, with book and assignment carried and Tux there. |
| `WorldLaws.NothingIsLost` | ECE391/mp2/world.c:1039-1914 | Over every game accomplishments stay, and the nine objects that no command uses up stay in the world. |
| `WorldProofs.StructureKept` | ECE391/mp2/world.c:1039-1914 | Every command keeps the lists duplicate-free and equal to the locations. |
| `WorldProofs.QuietChangesNothing` | ECE391/mp2/adventure.c:447-456 | A command after which nothing is redrawn has changed neither room, contents nor photo in view. |
| `WorldProofs.StartOk` | ECE391/mp2/world.c:864-982 | The built world satisfies structure and rules. |
| `WorldProofs.PlayKeeps` | ECE391/mp2/world.c:1039-1914 | Structure and rules hold after every sequence of commands. |
| `WorldProofs.EveryGame` | ECE391/mp2/world.c:1039-1914 | In every state of every game the lists are sound, the rules hold, and the player is in a room or has won. |
| `WorldProofs.EveryWin` | ECE391/mp2/world.c:1316-1349 | Every winning game has set all five flags, repaired the GPS and flashed the robot. |
| `WorldHeap.Heap.constructor` | ECE391/mp2/world.c:870-910 | The rooms start empty. |
| `WorldHeap.Heap.BuildWorld` | ECE391/mp2/world.c:912-950 | Placing the objects one by one gives the start of the rules; every object lies at its own place or, if it has none, at the place drawn for it. |
| `WorldHeap.Heap.FindInRoom` | ECE391/mp2/world.c:480-496 | Walking the links finds the first object of that name, or none. |
| `WorldHeap.Heap.Unlink` | ECE391/mp2/world.c:702-708 | The walk finds the link that points at the object and leaves a chain of all the others in order. |
| `WorldHeap.Heap.RemoveObject` | ECE391/mp2/world.c:693-713 | The linked lists represent the world with the object in limbo. |
| `WorldHeap.Heap.InsertObjectAt` | ECE391/mp2/world.c:512-526 | The linked lists represent the world with the object first in the room; its position is as given, no other moves. |
| `WorldPlaces.GridFull` | ECE391/mp2/world.c:592-605 | Different grid places are taken by different objects, so n taken places need n objects. |
| `WorldPlaces.FirstFreeApart` | ECE391/mp2/world.c:592-605 | With fewer than twelve objects the first free place is on the grid, apart from all of them. |
| `WorldPlaces.TurnedArranged` | ECE391/mp2/world.c:581-609 | In every world the rules allow, at most one object arrives anywhere: in the backpack on the first free grid place, row by row, or the place drawn if all are taken; the car battery at (265, 122); elsewhere at the place drawn; all others keep their places. |
| `WorldPlaces.TidyKept` | ECE391/mp2/world.c:581-609 | A command that leaves at most twelve carried objects leaves them on pairwise different grid places if they were before. |
| `WorldHeap.Heap.Occupied` | ECE391/mp2/world.c:594-599 | The walk tells whether some carried object sits on a place of the grid. |
| `WorldHeap.Heap.FreeSlot` | ECE391/mp2/world.c:592-605 | The nested search finds the first grid place, row by row, that no carried object occupies, and fails exactly when all twelve are taken; with fewer than twelve carried objects it finds one. |
| `WorldHeap.Heap.MoveObjectToInventory` | ECE391/mp2/world.c:581-609 | The object is carried, on the first free grid place, apart from all others whenever fewer than twelve were carried, at the drawn place on a full grid; no other object gets a new place. |
| `WorldHeap.Heap.SwapCarPhoto` | ECE391/mp2/world.c:458-467 | The room's photo and the stored one change places. |
| `WorldHeap.Heap.ObjSpecialGet` | ECE391/mp2/world.c:623-650 | The book for the fed or the hungry, the battery out of the open car, or nothing. |
| `WorldHeap.Heap.TryToMoveLeft` | ECE391/mp2/world.c:1039-1066 | A move left succeeds exactly where the map has a left exit and changes only the room and, by the coin, the bridge photo, as the rules do. |
| `WorldHeap.Heap.TryToEnter` | ECE391/mp2/world.c:1077-1163 | Doors, the changing doors of backpack and cockpit, and the four locked doors take the player where the rules do, and nothing else changes. |
| `WorldHeap.Heap.TryToMoveRight` | ECE391/mp2/world.c:1174-1201 | A move right succeeds exactly where the map has a right exit and changes only the room and, by the coin, the bridge photo, as the rules do. |
| `WorldHeap.Heap.TypedBuy` | ECE391/mp2/world.c:1215-1259 | Buying on the linked lists gives the same world and result as the rules: a Dew at the machine, on the first free place of the grid, or a meal. |
| `WorldHeap.Heap.TypedCharge` | ECE391/mp2/world.c:1271-1304 | Charging on the linked lists gives the same world and result as the rules: the empty battery becomes the full one at the magnet. |
| `WorldHeap.Heap.TypedDo` | ECE391/mp2/world.c:1316-1349 | Doing the assignment gives the same world and result as the rules: it wins exactly with book, assignment and Tux in place. |
| `WorldHeap.Heap.TypedDrink` | ECE391/mp2/world.c:1362-1384 | Drinking on the linked lists gives the same world and result as the rules. |
| `WorldHeap.Heap.TypedDrop` | ECE391/mp2/world.c:1398-1433 | Dropping moves the named carried object to the room the player stands in, as the rules do, at the place drawn; no other object is moved. |
| `WorldHeap.Heap.TypedFix` | ECE391/mp2/world.c:1446-1483 | Fixing on the linked lists gives the same world and result as the rules: the broken GPS and its data sheet become the working GPS. |
| `WorldHeap.Heap.TypedFlash` | ECE391/mp2/world.c:1496-1529 | Flashing on the linked lists gives the same world and result as the rules: the dead robot becomes the live one. |
| `WorldHeap.Heap.TypedGet` | ECE391/mp2/world.c:1542-1576 | Getting on the linked lists gives the same world and result as the rules, special objects first and Tux only when lured; what is got goes to the first free place of the grid. |
| `WorldHeap.Heap.TypedGo` | ECE391/mp2/world.c:1589-1670 | Driving gives the same world and result as the rules for all three destinations. |
| `WorldHeap.Heap.TypedInstall` | ECE391/mp2/world.c:1683-1737 | Installing on the linked lists gives the same world and result as the rules: battery into the car, card into the plane. |
| `WorldHeap.Heap.TypedInventory` | ECE391/mp2/world.c:1757-1774 | The backpack view is entered and left as in the rules, remembering the room. |
| `WorldHeap.Heap.TypedSigh` | ECE391/mp2/world.c:1789-1803 | Sighing gives the same world and result as the rules. |
| `WorldHeap.Heap.TypedUse` | ECE391/mp2/world.c:1816-1879 | Using on the linked lists gives the same world and result as the rules: the car with its key, its battery put at (265, 122), and the fish with Tux, put on the first free place of the grid. |
| `WorldHeap.Heap.TypedWear` | ECE391/mp2/world.c:1892-1914 | Wearing on the linked lists gives the same world and result as the rules: the suit is worn and gone. |
| `WorldHeap.Heap.Dispatch` | ECE391/mp2/adventure.c:385-444 | Every command on the linked lists is the command of the rules; at most one object is put somewhere, first in its room and at its due place: grid, hood or drawn place; all others keep their places and stay or vanish; a command that redraws nothing puts none. |
| `WorldHeap.Heap.PlayAll` | ECE391/mp2/adventure.c:307-338 | Every sequence of commands, each with its own coin toss and its own drawn place, gives on the linked lists the world of the rules and keeps them. |
| `WorldHeap.PlayGame` | ECE391/mp2/adventure.c:203-339 | A whole game, with a place drawn for each object of the build and for each command, ends won exactly when the rules say so, and then everything is earned. |
| `GameLoop.RedrawStays` | ECE391/mp2/adventure.c:447-456 | A command after which the room is only redrawn has changed neither the room nor its photo, so the window stays inside it; getting and dropping enter no room. |
| `GameLoop.EventFits` | ECE391/mp2/adventure.c:385-456 | What the loop makes of a command's result, speeds included, takes the view to the rendering of the new world, whether the room is entered, redrawn or left alone. |
| `GameLoop.WorldsArePlayed` | ECE391/mp2/adventure.c:307-338 | Along the inputs of a game, pans in between, the world is the one the rules give for the commands so far, and it is sound. |
| `GameLoop.BackpackStaysNeat` | ECE391/mp2/world.c:581-609 | Along every game, while never more than twelve objects were carried, they sit on the grid, each on a place of its own. |
| `GameLoop.SeenObject` | ECE391/mp2/photo.c:127-164 | Where objects of the room overlap, the picture shows the one that has been there longest, at its coordinates. |
| `GameLoop.SeenPhoto` | ECE391/mp2/photo.c:117-125 | Where no object of the room shows, the photo does: the car with its hood open from opening to repair, the bridge's by chance, every other room's own. |
| `GameLoop.SpeedsStayRight` | ECE391/mp2/adventure.c:398-421 | At every moment of every game the sideways speed is 6 with the board carried and 2 without, the other one likewise with the jetpack. |
| `GameLoop.GamePans` | ECE391/mp2/adventure.c:309-312 | In every game each pan moves the picture against the key by two pixels, by six with the vehicle of that direction, or just to the edge. |
| `GameLoop.Command` | ECE391/mp2/adventure.c:385-456 | A command changes the world by the rules and the screen with it; at most one object is put somewhere, at its due place. |
| `GameLoop.PlayShown` | ECE391/mp2/adventure.c:203-339 | A whole game on linked lists and video memory: whatever is typed and panned, every frame is the pixel-exact rendering of the room, photo, objects and window that the rules give at that moment, every object put by a command being at its due place; while never more than twelve objects were carried, they sit on pairwise different grid places; the speeds match what is carried; one frame per input, until the inputs end or the game is won. |
| `WorldWin.DeedsPlay` | ECE391/mp2/world.c:1039-1914 | From every point of a walkthrough that some game reaches, each deed allowed there is carried out by commands of the game. |
| `WorldWin.Finish` | ECE391/mp2/world.c:1316-1349 | In the laboratory with Tux, the book and the assignment two commands win. |
| `WorldWin.Winnable` | ECE391/mp2/world.c:1316-1349 | Some sequence of commands from the start wins the game. |
| `Itinerary.Plan` | ECE391/mp2/world.c:224-404 | Deeds lead from the start to the laboratory with Tux, the book and the assignment, over the map's exits. |
| `WorldLost.NoOtherWayIn` | ECE391/mp2/world.c:224-362 | No exit leads from outside into CSL or the 395 laboratory, whose doors take the Icard. |
| `WorldLost.ShutKept` | ECE391/mp2/world.c:1039-1914 | With the Icard behind its own doors and the player outside, every command leaves both so, and leaves card, book and assignment where they are behind the doors. |
| `WorldLost.NeverWon` | ECE391/mp2/world.c:1316-1349 | If then the assignment or the book is behind the doors too, no continuation of the game wins. |
| `WorldLost.Losable` | ECE391/mp2/world.c:1077-1163 | Such a game exists: some commands from the start lead to a state from which nothing wins. |
| `TuxFraming.StartsAreExact` | ECE391/mp2/module/tuxctl-ld.c:300-306 | The reference list of starts holds exactly the positions whose high bits are 0, 1, 1, in increasing order, once each. |
| `TuxFraming.PacketsAreExact` | ECE391/mp2/module/tuxctl-ld.c:300-312 | The reference packets are the triples at those positions, in order. |
| `TuxFraming.NoOverlap` | ECE391/mp2/module/tuxctl-ld.c:306-309 | No packet starts inside another. |
| `TuxFraming.ScanFindsAll` | ECE391/mp2/module/tuxctl-ld.c:302-312 | The scan that skips three bytes after a match finds the packets of all positions. |
| `TuxFraming.FramedStep` | ECE391/mp2/module/tuxctl-ld.c:295-317 | Scanning the kept tail with new bytes continues the framing of the whole history. |
| `TuxFraming.FeedKeepsFraming` | ECE391/mp2/module/tuxctl-ld.c:286-318 | Feeding a chunk keeps the framing invariant. |
| `TuxFraming.ChunkingDoesNotMatter` | ECE391/mp2/module/tuxctl-ld.c:286-318 | For every chunking the packets found are those of the stream in one piece, and at most two bytes are held back. |
| `TuxLineDiscipline.Ring.FullAtCapacity` | ECE391/mp2/module/tuxctl-ld.c:99-107 | The ring holds at most 63 bytes; full and empty are what they should be of the queue. |
| `TuxLineDiscipline.Ring.Push` | ECE391/mp2/module/tuxctl-ld.c:173-174 | A byte is appended to the queue. |
| `TuxLineDiscipline.Ring.Pop` | ECE391/mp2/module/tuxctl-ld.c:235-236 | The first byte of the queue is removed. |
| `TuxLineDiscipline.Ring.Accept` | ECE391/mp2/module/tuxctl-ld.c:172-176 | Exactly as many bytes as fit are appended, in order. |
| `TuxLineDiscipline.Ring.Take` | ECE391/mp2/module/tuxctl-ld.c:234-238 | Exactly the requested number of bytes, or all there are, are removed from the front. |
| `TuxLineDiscipline.Ldisc.constructor` | ECE391/mp2/module/tuxctl-ld.c:110-135 | Both rings start empty and nothing has been handled. |
| `TuxLineDiscipline.Ldisc.HandledIsOneShot` | ECE391/mp2/module/tuxctl-ld.c:286-318 | At any time the packets handled are those of the consumed stream read in one piece, with at most two bytes kept. |
| `TuxLineDiscipline.Ldisc.ReceiveBuf` | ECE391/mp2/module/tuxctl-ld.c:160-184 | What fits is received; of the ring's bytes followed by these, as many as fit the work buffer beside the kept tail are consumed and framed; the rest waits in the ring. |
| `TuxLineDiscipline.Ldisc.DataCallback` | ECE391/mp2/module/tuxctl-ld.c:286-318 | Up to twelve bytes with the kept tail are consumed and framed. |
| `TuxLineDiscipline.Ldisc.Put` | ECE391/mp2/module/tuxctl-ld.c:249-272 | The result is exactly the number of bytes not accepted; accepted bytes are handed-over bytes followed by the ring. |
| `TuxLineDiscipline.Ldisc.WriteWakeup` | ECE391/mp2/module/tuxctl-ld.c:189-215 | Bytes are handed over in order, one more than the announced room when there are that many. |
| `KernelModel.LowestFreeIs` | ECE391/mp3/student-distrib/paging.c:119-146 | The process number chosen is free and every lower one is taken; none is chosen exactly when all are taken. |
| `KernelModel.NextUpStops` | ECE391/mp3/student-distrib/scheduling.c:40-46 | The rotation ends within one turn of the queue, at a runnable entry. |
| `KernelModel.TickKeeps` | ECE391/mp3/student-distrib/scheduling.c:38-61 | A tick keeps the invariant of queue, present bits and process chains. |
| `KernelModel.ExecKeeps` | ECE391/mp3/student-distrib/filesys.c:540-605 | Execute keeps the invariant: the child tops its caller's chain and the caller sleeps; a full table changes nothing. |
| `KernelModel.ParentWaits` | ECE391/mp3/student-distrib/filesys.c:709-719 | The parent of a running non-root is queued behind it and asleep. |
| `KernelModel.HaltKeeps` | ECE391/mp3/student-distrib/filesys.c:664-721 | Halt keeps the invariant: the parent tops the chain again; a root stays. |
| `KernelRuns.BootedIs` | ECE391/mp3/student-distrib/scheduling.c:24-35 | Three boot ticks queue the three shells, all runnable, the last one running. |
| `KernelRuns.BootKeeps` | ECE391/mp3/student-distrib/scheduling.c:24-35 | The booted kernel satisfies the invariant. |
| `KernelRuns.ApplyKeeps` | ECE391/mp3/student-distrib/filesys.c:540-721 | Every event keeps the invariant, and halt always has a parent to go back to. |
| `KernelRuns.RunKeeps` | ECE391/mp3/student-distrib/filesys.c:540-721 | So does every sequence of events. |
| `KernelRuns.EveryRunSafe` | ECE391/mp3/student-distrib/filesys.c:540-721 | After boot, every sequence keeps the queue duplicate-free and equal to the present directories, its head the enabled running process, every non-root's parent queued and asleep, and exactly one enabled process under each root shell. |
| `KernelRuns.HaltUndoesExec` | ECE391/mp3/student-distrib/filesys.c:657-723 | Halting a just started child gives back queue order, present bits and running process of the caller. |
| `KernelRuns.NextUpOrder` | ECE391/mp3/student-distrib/scheduling.c:40-46 | The rotation moves the running process behind the other runnable ones and keeps their order. |
| `KernelRuns.ThreeRunnable` | ECE391/mp3/student-distrib/scheduling.c:40-46 | Exactly three processes may run, one above each shell. |
| `KernelRuns.RoundRobin` | ECE391/mp3/student-distrib/scheduling.c:8-76 | After n ticks the runner is the n-th of the three, counted cyclically. |
| `KernelRuns.FairTurns` | ECE391/mp3/student-distrib/scheduling.c:8-76 | Between two turns of a process each other runnable process has exactly one. |
| `KernelContexts.TickEffect` | ECE391/mp3/student-distrib/scheduling.c:8-61 | A tick saves the context of the interrupted process, marks the next one running and touches no other entry. |
| `KernelContexts.ExecEffect` | ECE391/mp3/student-distrib/filesys.c:540-605 | Execute queues the child, puts the caller to sleep with its context and touches no other entry. |
| `KernelContexts.HaltEffect` | ECE391/mp3/student-distrib/filesys.c:664-721 | Halt removes the process, wakes its parent with its context and touches no other entry. |
| `KernelContexts.WaitingKeeps` | ECE391/mp3/student-distrib/scheduling.c:8-61 | Whatever happens, a process that is not running keeps its saved context, and has it when it comes to run. |
| `KernelContexts.ContextStays` | ECE391/mp3/student-distrib/filesys.c:540-721 | Over every sequence of events, what is saved for a process stays saved until it runs again. |
| `KernelContexts.Resumes` | ECE391/mp3/student-distrib/scheduling.c:14-61 | A process interrupted with a context has that context at the head of the queue when it next runs, whatever happened in between. |
| `KernelContexts.NextTurnResumes` | ECE391/mp3/student-distrib/scheduling.c:14-61 | In every ticking run the process interrupted with context c has its next turn three ticks later, as head of the queue with context c. |
| `KernelContexts.EveryRunMarked` | ECE391/mp3/student-distrib/scheduling.c:8-61 | In every state of every run the running process and the sleeping callers are marked running and the waiting processes are not. |
| `KernelSched.Scheduler.constructor` | ECE391/mp3/student-distrib/scheduling.c:100-104 | The tables start empty. |
| `KernelSched.Scheduler.TaskPush` | ECE391/mp3/student-distrib/scheduling.c:120-139 | The entry is appended to the compact queue unless six are there. |
| `KernelSched.Scheduler.TaskPop` | ECE391/mp3/student-distrib/scheduling.c:149-172 | The first entry of the process is removed and the gap closed; the result says whether there was one. |
| `KernelSched.Scheduler.TaskGrab` | ECE391/mp3/student-distrib/scheduling.c:184-196 | The saved context of the process, marked running, or a null process. |
| `KernelSched.Scheduler.NewProcess` | ECE391/mp3/student-distrib/paging.c:119-146 | The lowest free present bit is set and its number returned, or none. |
| `KernelSched.Scheduler.Execute` | ECE391/mp3/student-distrib/filesys.c:540-605 | The tables follow the value model's execute, during and after boot. |
| `KernelSched.Scheduler.Halt` | ECE391/mp3/student-distrib/filesys.c:657-723 | The tables follow the value model's halt. |
| `KernelSched.Scheduler.Schedule` | ECE391/mp3/student-distrib/scheduling.c:40-46 | The pop and push loop ends and is the rotation to the next runnable entry. |
| `KernelSched.Scheduler.Timer` | ECE391/mp3/student-distrib/scheduling.c:8-61 | The tables follow the value model's boot tick or tick, the saved context included. |
| `KernelSched.StartUp` | ECE391/mp3/student-distrib/scheduling.c:24-35 | Three interrupts from the empty tables boot the kernel. |
| `KernelSched.BootAndRun` | ECE391/mp3/student-distrib/filesys.c:540-721 | Boot and any sequence of events on the tables give the value model's state, which is safe. |
| `FileSystem.ReadInode` | ECE391/mp3/student-distrib/filesys.c:297-317 | The loop delivers the file's bytes from the offset on, across blocks, until its stopping condition first holds. |
| `FileSystem.ReadData` | ECE391/mp3/student-distrib/filesys.c:280-318 | The same for an inode of an image, and nothing for a bad inode number; bytes after the result stay. |
| `FileSystem.InsideDelivers` | ECE391/mp3/student-distrib/filesys.c:298-304 | A read inside a well-formed file delivers exactly what is asked. |
| `FileSystem.ExactCount` | ECE391/mp3/student-distrib/filesys.c:298-304 | The exact number of bytes for every offset and length, the extra byte at the end included. |
| `FileSystem.PromiseKeptExactly` | ECE391/mp3/student-distrib/filesys.c:276-304 | The promised count is returned if and only if the read does not go past the end, as the condition spells out. |
| `FileSystem.ReadsPastEnd` | ECE391/mp3/student-distrib/filesys.c:300-301 | An empty file delivers one byte. |
| `FileLayout.CountsBack` | ECE391/mp3/student-distrib/filesys.c:403-412 | The counts written to bytes 4 and 8 of the boot block are the ones the reader uses. |
| `FileLayout.LengthBack` | ECE391/mp3/student-distrib/types.h:48-51 | The length word written first into inode block i is the file's length to the reader. |
| `FileLayout.SlotBack` | ECE391/mp3/student-distrib/filesys.c:424-429 | The block words written after it are the block numbers to the reader, each at its own index. |
| `FileLayout.FileBack` | ECE391/mp3/student-distrib/filesys.c:297-317 | An inode of a laid out volume is well-formed, and the bytes it stands for are the file. |
| `FileLayout.ReadBack` | ECE391/mp3/student-distrib/filesys.c:280-318 | A round trip: reading inside any file of any volume laid out by a writer of its own gives exactly the part asked for, for every assignment of blocks to files. |
| `FileLayout.ReadAllBack` | ECE391/mp3/student-distrib/filesys.c:141-151 | Consecutive reads of an open file of such a volume give the file back from where it stands, however they are cut. |
| `FileSystem.OpenFile.Read` | ECE391/mp3/student-distrib/filesys.c:141-151 | The position advances by exactly what was delivered. |
| `FileSystem.OpenFile.ReadAll` | ECE391/mp3/student-distrib/filesys.c:141-151 | Consecutive reads within the file concatenate to the file's bytes from any starting position, however they are cut. |
| `FileSystem.LoadFile` | ECE391/mp3/student-distrib/filesys.c:381-384 | Loading a whole program copies every byte, and the loader's length check succeeds. |

## Left out

- Processor reset, misaligned accesses, CSR and FENCE instructions, and undefined funct3 codes of implemented opcodes.
- The fixed memory delay of 25 cycles; the theorems hold for every delay.
- VGA ports, palettes, fonts, the status bar and text, and mapping of video memory: input and output.
- Photos smaller than the screen: the panning code and the fillers then read outside the photo.
- Parsing of typed command lines, command abbreviations and status messages.
- The range from which the place of a randomly placed object is drawn: the place is a parameter.
- Exactly which states can still be won from: a winning game and a family of lost states are proved, not where the line between them runs.
- Reopening the line discipline, whose kept bytes are static; a detached terminal; whether the driver accepts what it is handed.
- TuxLineDiscipline.Ldisc.WriteWakeup: states order and hand-over only, because the driver may refuse the extra byte.
- Stack switching, privilege changes, address space reloads, interrupts inside a system call, and a program load that fails after its process number was taken.
- Consoles, keyboard, clock, interrupt controller, directory entries and file names of the kernel.
- FileSystem.ReadData: does not model 32-bit wrap-around of positions and addresses, which no file of this format reaches.
- The unfinished assembly program of the first course project, and the processor designs described only in documents.
