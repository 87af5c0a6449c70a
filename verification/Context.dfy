/** Context management: which blocks of a message history are cleared, and what is reported.
    Clearing only ever overwrites three parts of a block, so an edit is a set of marks (a block and
    the part of it to overwrite) and its effect is to paint those marks. */
module Context {
  import opened Json

  // ----- messages -----

  /** A raw JSON value kept beside the known fields of a block. */
  datatype Raw = StringValue(s: string) | OtherValue(v: Json)

  datatype Block = Block(
    blockType: string,
    id: Option<string>,
    name: Option<string>,
    toolUseId: Option<string>,
    isError: Option<bool>,
    source: Json,
    text: Option<string>,
    input: Json,
    content: Json,
    extra: map<string, Raw>)

  datatype Message = Message(role: string, text: Option<string>, blocks: seq<Block>)

  datatype Ref = Ref(message: nat, block: nat)

  predicate IsRef(ms: seq<Message>, r: Ref) {
    r.message < |ms| && r.block < |ms[r.message].blocks|
  }

  predicate AreRefs(ms: seq<Message>, refs: seq<Ref>) {
    forall i | 0 <= i < |refs| :: IsRef(ms, refs[i])
  }

  function BlockAt(ms: seq<Message>, r: Ref): Block
    requires IsRef(ms, r)
  {
    ms[r.message].blocks[r.block]
  }

  // ----- sizes -----

  /** The number of characters in the encoding of a value other than null. */
  type Size = Json -> nat

  function JsonChars(size: Size, v: Json): nat {
    if v == Null then 0 else size(v)
  }

  function RuneLen(text: Option<string>): nat {
    if text.None? then 0 else |text.value|
  }

  function ToolResultChars(size: Size, b: Block): nat {
    JsonChars(size, b.content) + RuneLen(b.text)
  }

  function ThinkingChars(b: Block): nat {
    if "thinking" in b.extra && b.extra["thinking"].StringValue? then |b.extra["thinking"].s| else 0
  }

  function EstimateTokens(chars: nat): nat {
    (chars + 3) / 4
  }

  function BlocksChars(size: Size, blocks: seq<Block>): nat {
    if blocks == [] then 0
    else
      var n, b := |blocks| - 1, blocks[|blocks| - 1];
      BlocksChars(size, blocks[..n]) + RuneLen(b.text) + JsonChars(size, b.input) + ToolResultChars(size, b)
        + ThinkingChars(b)
  }

  function MessageChars(size: Size, m: Message): nat {
    if m.text.Some? then |m.text.value| else BlocksChars(size, m.blocks)
  }

  function MessagesChars(size: Size, ms: seq<Message>): nat {
    if ms == [] then 0 else MessagesChars(size, ms[..|ms| - 1]) + MessageChars(size, ms[|ms| - 1])
  }

  // ----- painting -----

  datatype Part = Result | Input | Thinking
  datatype Mark = Mark(at: Ref, part: Part)

  const TOOL_RESULT_PLACEHOLDER := Str(Lit("Tool result content cleared by gateway context management."))
  const THINKING_PLACEHOLDER := StringValue("Thinking content cleared by gateway context management.")

  function PaintBlock(b: Block, result: bool, input: bool, thinking: bool): Block {
    b.(content := if result then TOOL_RESULT_PLACEHOLDER else b.content,
       text := if result || thinking then None else b.text,
       input := if input then Obj(map[]) else b.input,
       extra := if thinking then b.extra["thinking" := THINKING_PLACEHOLDER] else b.extra)
  }

  function PaintAt(b: Block, r: Ref, marks: set<Mark>): Block {
    PaintBlock(b, Mark(r, Result) in marks, Mark(r, Input) in marks, Mark(r, Thinking) in marks)
  }

  function PaintBlocks(blocks: seq<Block>, message: nat, marks: set<Mark>): (r: seq<Block>)
    ensures |r| == |blocks|
  {
    seq(|blocks|, j requires 0 <= j < |blocks| => PaintAt(blocks[j], Ref(message, j), marks))
  }

  function Paint(ms: seq<Message>, marks: set<Mark>): (r: seq<Message>)
    ensures |r| == |ms|
  {
    seq(|ms|, i requires 0 <= i < |ms| => ms[i].(blocks := PaintBlocks(ms[i].blocks, i, marks)))
  }

  // ----- tool interactions -----

  datatype Interaction = Interaction(name: Option<string>, toolUse: Ref, toolResults: seq<Ref>)

  datatype Scanned = Scanned(interactions: seq<Interaction>, byCallId: map<string, nat>)

  /** Every call id found so far names an interaction found so far. */
  predicate Indexed(acc: Scanned) {
    forall c | c in acc.byCallId :: acc.byCallId[c] < |acc.interactions|
  }

  function Visit(acc: Scanned, r: Ref, b: Block): (acc': Scanned)
    requires Indexed(acc)
    ensures Indexed(acc')
  {
    if b.blockType == "tool_use" && b.id.Some? then
      Scanned(acc.interactions + [Interaction(b.name, r, [])], acc.byCallId[b.id.value := |acc.interactions|])
    else if b.blockType == "tool_result" && b.toolUseId.Some? && b.toolUseId.value in acc.byCallId then
      var index := acc.byCallId[b.toolUseId.value];
      var found := acc.interactions[index];
      acc.(interactions := acc.interactions[index := found.(toolResults := found.toolResults + [r])])
    else acc
  }

  /** What a scan that has reached block `bi` of message `mi` ends with. */
  function Scan(ms: seq<Message>, acc: Scanned, mi: nat, bi: nat): Scanned
    requires Indexed(acc)
    decreases |ms| - mi, if mi < |ms| then |ms[mi].blocks| - bi else 0
  {
    if mi >= |ms| then acc
    else if bi >= |ms[mi].blocks| then Scan(ms, acc, mi + 1, 0)
    else Scan(ms, Visit(acc, Ref(mi, bi), ms[mi].blocks[bi]), mi, bi + 1)
  }

  function Collect(ms: seq<Message>): seq<Interaction> {
    Scan(ms, Scanned([], map[]), 0, 0).interactions
  }

  // ----- policies -----

  datatype Threshold = Threshold(thresholdType: string, value: nat)

  datatype Edit = Edit(
    editType: string,
    trigger: Option<Threshold>,
    keep: Json,
    clearAtLeast: Option<Threshold>,
    excludeTools: seq<string>,
    clearToolInputs: bool)

  datatype HardLimits = HardLimits(toolUses: Option<nat>, thinkingTurns: Option<nat>, resultChars: Option<nat>)

  datatype ToolPolicy = ToolPolicy(editType: string, keep: nat, exclude: set<string>, clearInputs: bool,
                                   clearAtLeast: Option<Threshold>)

  datatype Applied = Applied(editType: string, toolUses: nat, thinkingTurns: nat, inputTokens: nat, chars: nat)

  datatype Outcome = Outcome(messages: seq<Message>, applied: Option<Applied>)

  const MAX_INT := 0x7fff_ffff_ffff_ffff

  /** The source's thresholds are 64-bit unsigned, its counters 64-bit signed. */
  function ThresholdToInt(t: Threshold): nat {
    if t.value > MAX_INT then MAX_INT else t.value
  }

  function KeepValue(keep: Json, expected: string): Option<nat> {
    if keep.Obj? && HasString(keep.fields, "type", expected) && "value" in keep.fields
       && keep.fields["value"].Num? && keep.fields["value"].n >= 0.0
    then Some(keep.fields["value"].n.Floor) else None
  }

  /** None keeps everything. */
  function KeepThinkingTurns(keep: Json): Option<nat> {
    if keep == Null then Some(1)
    else if keep == Str(Lit("all")) then None
    else KeepValue(keep, "thinking_turns")
  }

  const DEFAULT_TOOL_KEEP_USES: nat := 3

  function PolicyOf(edit: Edit): ToolPolicy {
    var keep := KeepValue(edit.keep, "tool_uses");
    ToolPolicy(edit.editType, if keep.Some? then keep.value else DEFAULT_TOOL_KEEP_USES,
               (set t | t in edit.excludeTools), edit.clearToolInputs, edit.clearAtLeast)
  }

  function LimitPolicy(keep: nat): ToolPolicy {
    ToolPolicy("clear_tool_uses_gateway_hard_limit", keep, {}, false, None)
  }

  // ----- clearing tool interactions -----

  predicate Excluded(x: Interaction, exclude: set<string>) {
    x.name.Some? && x.name.value in exclude
  }

  /** The positions below `n` of the interactions that are not excluded. */
  function Eligible(xs: seq<Interaction>, exclude: set<string>, n: nat): (r: seq<nat>)
    requires n <= |xs|
    ensures |r| <= n && forall i | 0 <= i < |r| :: r[i] < n && !Excluded(xs[r[i]], exclude)
  {
    if n == 0 then []
    else Eligible(xs, exclude, n - 1) + if Excluded(xs[n - 1], exclude) then [] else [n - 1]
  }

  /** The interactions to clear: all eligible ones but the newest `keep`. */
  function Candidates(xs: seq<Interaction>, policy: ToolPolicy): (r: seq<nat>)
    ensures forall i | 0 <= i < |r| :: r[i] < |xs| && !Excluded(xs[r[i]], policy.exclude)
  {
    var eligible := Eligible(xs, policy.exclude, |xs|);
    if policy.keep >= |eligible| then [] else eligible[..|eligible| - policy.keep]
  }

  function ResultChars(size: Size, ms: seq<Message>, refs: seq<Ref>): nat
    requires AreRefs(ms, refs)
  {
    if refs == [] then 0
    else ResultChars(size, ms, refs[..|refs| - 1]) + ToolResultChars(size, BlockAt(ms, refs[|refs| - 1]))
  }

  predicate InteractionIn(ms: seq<Message>, x: Interaction) {
    IsRef(ms, x.toolUse) && AreRefs(ms, x.toolResults)
  }

  function InteractionChars(size: Size, ms: seq<Message>, x: Interaction, clearInputs: bool): nat
    requires InteractionIn(ms, x)
  {
    ResultChars(size, ms, x.toolResults) + if clearInputs then JsonChars(size, BlockAt(ms, x.toolUse).input) else 0
  }

  function InteractionMarks(x: Interaction, clearInputs: bool): set<Mark> {
    (set r | r in x.toolResults :: Mark(r, Result)) + if clearInputs then {Mark(x.toolUse, Input)} else {}
  }

  predicate AllIn(ms: seq<Message>, xs: seq<Interaction>) {
    forall i | 0 <= i < |xs| :: InteractionIn(ms, xs[i])
  }

  predicate Picks(xs: seq<Interaction>, picked: seq<nat>) {
    forall i | 0 <= i < |picked| :: picked[i] < |xs|
  }

  function PickedChars(size: Size, ms: seq<Message>, xs: seq<Interaction>, picked: seq<nat>, clearInputs: bool): nat
    requires AllIn(ms, xs) && Picks(xs, picked)
  {
    if picked == [] then 0
    else
      var n := |picked| - 1;
      PickedChars(size, ms, xs, picked[..n], clearInputs) + InteractionChars(size, ms, xs[picked[n]], clearInputs)
  }

  /** How many of the picked interactions hold anything to clear. */
  function PickedUses(size: Size, ms: seq<Message>, xs: seq<Interaction>, picked: seq<nat>, clearInputs: bool): nat
    requires AllIn(ms, xs) && Picks(xs, picked)
  {
    if picked == [] then 0
    else
      var n := |picked| - 1;
      PickedUses(size, ms, xs, picked[..n], clearInputs)
      + if InteractionChars(size, ms, xs[picked[n]], clearInputs) > 0 then 1 else 0
  }

  function PickedMarks(xs: seq<Interaction>, picked: seq<nat>, clearInputs: bool): set<Mark>
    requires Picks(xs, picked)
  {
    if picked == [] then {}
    else
      var n := |picked| - 1;
      PickedMarks(xs, picked[..n], clearInputs) + InteractionMarks(xs[picked[n]], clearInputs)
  }

  predicate GateCloses(clearAtLeast: Option<Threshold>, chars: nat) {
    && clearAtLeast.Some?
    && clearAtLeast.value.thresholdType == "input_tokens"
    && EstimateTokens(chars) < ThresholdToInt(clearAtLeast.value)
  }

  function ToolsReport(policy: ToolPolicy, uses: nat, chars: nat): Option<Applied> {
    if uses == 0 then None else Some(Applied(policy.editType, uses, 0, EstimateTokens(chars), chars))
  }

  /** The amounts are those of the messages as they are before anything is cleared. */
  function ClearTools(size: Size, ms: seq<Message>, xs: seq<Interaction>, policy: ToolPolicy): Outcome
    requires AllIn(ms, xs)
  {
    var picked := Candidates(xs, policy);
    var chars := PickedChars(size, ms, xs, picked, policy.clearInputs);
    if GateCloses(policy.clearAtLeast, chars) then Outcome(ms, None)
    else Outcome(Paint(ms, PickedMarks(xs, picked, policy.clearInputs)),
                 ToolsReport(policy, PickedUses(size, ms, xs, picked, policy.clearInputs), chars))
  }

  function TriggerActive(size: Size, ms: seq<Message>, xs: seq<Interaction>, trigger: Option<Threshold>): bool {
    match trigger
    case None => true
    case Some(t) =>
      if t.thresholdType == "tool_uses" then |xs| > ThresholdToInt(t)
      else if t.thresholdType == "input_tokens" then EstimateTokens(MessagesChars(size, ms)) > ThresholdToInt(t)
      else false
  }

  // ----- clearing thinking turns -----

  predicate IsThinking(blockType: string) {
    blockType == "thinking" || blockType == "redacted_thinking"
  }

  predicate HasThinking(m: Message) {
    exists b | b in m.blocks :: IsThinking(b.blockType)
  }

  /** The assistant messages below `n` that hold thinking. */
  function ThinkingTurns(ms: seq<Message>, n: nat): (r: seq<nat>)
    requires n <= |ms|
    ensures |r| <= n && forall i | 0 <= i < |r| :: r[i] < n && ms[r[i]].role == "assistant" && HasThinking(ms[r[i]])
  {
    if n == 0 then []
    else ThinkingTurns(ms, n - 1) + if ms[n - 1].role == "assistant" && HasThinking(ms[n - 1]) then [n - 1] else []
  }

  function OldTurns(ms: seq<Message>, keep: nat): (r: seq<nat>)
    ensures forall i | 0 <= i < |r| :: r[i] < |ms| && ms[r[i]].role == "assistant" && HasThinking(ms[r[i]])
  {
    var turns := ThinkingTurns(ms, |ms|);
    if keep >= |turns| then [] else turns[..|turns| - keep]
  }

  predicate AreTurns(ms: seq<Message>, turns: seq<nat>) {
    forall i | 0 <= i < |turns| :: turns[i] < |ms|
  }

  function TurnMarks(ms: seq<Message>, turns: seq<nat>): set<Mark>
    requires AreTurns(ms, turns)
  {
    set i, j | 0 <= i < |turns| && 0 <= j < |ms[turns[i]].blocks| && IsThinking(ms[turns[i]].blocks[j].blockType)
             :: Mark(Ref(turns[i], j), Thinking)
  }

  function ThinkingCharsOf(blocks: seq<Block>): nat {
    if blocks == [] then 0
    else
      var b := blocks[|blocks| - 1];
      ThinkingCharsOf(blocks[..|blocks| - 1]) + if IsThinking(b.blockType) then ThinkingChars(b) else 0
  }

  function TurnChars(ms: seq<Message>, turns: seq<nat>): nat
    requires AreTurns(ms, turns)
  {
    if turns == [] then 0
    else TurnChars(ms, turns[..|turns| - 1]) + ThinkingCharsOf(ms[turns[|turns| - 1]].blocks)
  }

  function ClearThinking(ms: seq<Message>, editType: string, keep: nat): Outcome {
    var stale := OldTurns(ms, keep);
    Outcome(Paint(ms, TurnMarks(ms, stale)),
            if stale == [] then None
            else Some(Applied(editType, 0, |stale|, EstimateTokens(TurnChars(ms, stale)), TurnChars(ms, stale))))
  }

  // ----- clearing oversized results -----

  predicate Oversized(size: Size, b: Block, limit: nat) {
    b.blockType == "tool_result" && ToolResultChars(size, b) > limit
  }

  function OversizedMarks(size: Size, ms: seq<Message>, limit: nat): set<Mark> {
    set i, j | 0 <= i < |ms| && 0 <= j < |ms[i].blocks| && Oversized(size, ms[i].blocks[j], limit) ::
      Mark(Ref(i, j), Result)
  }

  /** How many blocks are oversized, and their characters. */
  function OversizedIn(size: Size, blocks: seq<Block>, limit: nat): (nat, nat) {
    if blocks == [] then (0, 0)
    else
      var before, b := OversizedIn(size, blocks[..|blocks| - 1], limit), blocks[|blocks| - 1];
      if Oversized(size, b, limit) then (before.0 + 1, before.1 + ToolResultChars(size, b)) else before
  }

  function OversizedInAll(size: Size, ms: seq<Message>, limit: nat): (nat, nat) {
    if ms == [] then (0, 0)
    else
      var before, last := OversizedInAll(size, ms[..|ms| - 1], limit), OversizedIn(size, ms[|ms| - 1].blocks, limit);
      (before.0 + last.0, before.1 + last.1)
  }

  function ClearOversized(size: Size, ms: seq<Message>, limit: nat): Outcome {
    var counted := OversizedInAll(size, ms, limit);
    Outcome(Paint(ms, OversizedMarks(size, ms, limit)),
            if counted.0 == 0 then None
            else Some(Applied("clear_tool_uses_gateway_hard_limit_chars", counted.0, 0, EstimateTokens(counted.1),
              counted.1)))
  }

  // ----- the whole pass -----

  predicate IsThinkingEdit(edit: Edit) {
    "clear_thinking" <= edit.editType
  }

  predicate IsToolEdit(edit: Edit) {
    "clear_tool_uses" <= edit.editType
  }

  /** The scan only finds blocks that are there. */
  lemma {:induction false} ScanIn(ms: seq<Message>, acc: Scanned, mi: nat, bi: nat)
    requires Indexed(acc) && AllIn(ms, acc.interactions)
    ensures AllIn(ms, Scan(ms, acc, mi, bi).interactions)
    decreases |ms| - mi, if mi < |ms| then |ms[mi].blocks| - bi else 0
  {
    if mi < |ms| {
      if bi >= |ms[mi].blocks| {
        ScanIn(ms, acc, mi + 1, 0);
      } else {
        var acc' := Visit(acc, Ref(mi, bi), ms[mi].blocks[bi]);
        ScanIn(ms, acc', mi, bi + 1);
      }
    }
  }

  lemma {:induction false} CollectIn(ms: seq<Message>)
    ensures AllIn(ms, Collect(ms))
  {
    ScanIn(ms, Scanned([], map[]), 0, 0);
  }

  function ApplyToolEdit(size: Size, ms: seq<Message>, edit: Edit): Outcome {
    var xs := Collect(ms);
    CollectIn(ms);
    if xs == [] || !TriggerActive(size, ms, xs, edit.trigger) then Outcome(ms, None)
    else ClearTools(size, ms, xs, PolicyOf(edit))
  }

  function ApplyEdit(size: Size, ms: seq<Message>, edit: Edit): Outcome {
    if IsThinkingEdit(edit) then
      match KeepThinkingTurns(edit.keep)
      case None => Outcome(ms, None)
      case Some(keep) => ClearThinking(ms, edit.editType, keep)
    else if IsToolEdit(edit) then ApplyToolEdit(size, ms, edit)
    else Outcome(ms, None)
  }

  datatype Report = Report(applied: seq<Applied>, ignored: seq<string>)

  datatype Pass = Pass(messages: seq<Message>, report: Report)

  function Listed(a: Option<Applied>): seq<Applied> {
    if a.None? then [] else [a.value]
  }

  /** The first `n` edits, one after the other. */
  function ApplyEdits(size: Size, ms: seq<Message>, edits: seq<Edit>, ignored: seq<string>, n: nat): Pass
    requires n <= |edits|
  {
    if n == 0 then Pass(ms, Report([], ignored))
    else
      var before, edit := ApplyEdits(size, ms, edits, ignored, n - 1), edits[n - 1];
      var step := ApplyEdit(size, before.messages, edit);
      Pass(step.messages,
           Report(before.report.applied + Listed(step.applied),
                  before.report.ignored + if IsThinkingEdit(edit) || IsToolEdit(edit) then [] else [edit.editType]))
  }

  function LimitToolUses(size: Size, ms: seq<Message>, limits: HardLimits): Outcome {
    CollectIn(ms);
    if limits.toolUses.None? then Outcome(ms, None)
    else ClearTools(size, ms, Collect(ms), LimitPolicy(limits.toolUses.value))
  }

  function LimitThinking(ms: seq<Message>, limits: HardLimits): Outcome {
    if limits.thinkingTurns.None? then Outcome(ms, None)
    else ClearThinking(ms, "clear_thinking_gateway_hard_limit", limits.thinkingTurns.value)
  }

  function LimitResults(size: Size, ms: seq<Message>, limits: HardLimits): Outcome {
    if limits.resultChars.None? then Outcome(ms, None) else ClearOversized(size, ms, limits.resultChars.value)
  }

  function ApplyLimits(size: Size, ms: seq<Message>, limits: HardLimits): (seq<Message>, seq<Applied>) {
    var tools := LimitToolUses(size, ms, limits);
    var thinking := LimitThinking(tools.messages, limits);
    var results := LimitResults(size, thinking.messages, limits);
    (results.messages, Listed(tools.applied) + Listed(thinking.applied) + Listed(results.applied))
  }

  /** One pass over a request: the resolved edits in order, then the hard limits. */
  function Apply(size: Size, ms: seq<Message>, edits: seq<Edit>, ignored: seq<string>, limits: HardLimits): Pass {
    var edited := ApplyEdits(size, ms, edits, ignored, |edits|);
    var limited := ApplyLimits(size, edited.messages, limits);
    Pass(limited.0, edited.report.(applied := edited.report.applied + limited.1))
  }
}
