/**
 * The shape of a rendered command line: a program name followed by one group
 * per option, in a fixed order, where each option contributes nothing, a bare
 * flag, or a flag and its value.
 */
module CommandLine {
  import opened Wrappers

  /** What one option contributes: nothing, ` flag`, or ` flag value`. */
  datatype Slot = Absent | Bare | Valued(text: string)

  /** A bare flag that is present exactly when `on` holds. */
  function Switch(on: bool): Slot {
    if on then Bare else Absent
  }

  /** A flag with a value that is present exactly when the value is. */
  function Value(v: Option<string>): Slot {
    match v
    case None => Absent
    case Some(t) => Valued(t)
  }

  /** ` flag`: the group of a bare flag. */
  function FlagGroup(flag: string): string {
    " " + flag
  }

  /** ` flag value`: the group of a flag with its value. */
  function ValueGroup(flag: string, value: string): string {
    " " + flag + " " + value
  }

  /** The text one option appends. */
  function Group(flag: string, slot: Slot): string {
    match slot
    case Absent => ""
    case Bare => FlagGroup(flag)
    case Valued(t) => ValueGroup(flag, t)
  }

  /**
   * A command line as structure: the program name, then the groups appended
   * so far, the most recent outermost. A group is a flag with or without a
   * value.
   */
  datatype Line = Start(program: string) | Then(init: Line, flag: string, value: Option<string>)

  /** The text of a line: the program name followed by every group in order. */
  function Written(l: Line): string {
    match l
    case Start(p) => p
    case Then(init, flag, None) => Written(init) + FlagGroup(flag)
    case Then(init, flag, Some(v)) => Written(init) + ValueGroup(flag, v)
  }

  /** `l` with the group one option contributes appended, if it contributes one. */
  function Add(l: Line, flag: string, slot: Slot): Line {
    match slot
    case Absent => l
    case Bare => Then(l, flag, None)
    case Valued(t) => Then(l, flag, Some(t))
  }

  /** Adding an option's group to a line appends exactly that group's text. */
  lemma WrittenAdd(l: Line, flag: string, slot: Slot)
    ensures Written(Add(l, flag, slot)) == Written(l) + Group(flag, slot)
  {
  }

  /** A line with one group written out: the program name, a space, the flag, and its value if any. */
  lemma WrittenOne(p: string, flag: string, value: Option<string>)
    ensures value.None? ==> Written(Then(Start(p), flag, value)) == p + " " + flag
    ensures value.Some? ==> Written(Then(Start(p), flag, value)) == p + " " + flag + " " + value.value
  {
  }

  /** `text` when `on` holds, and nothing otherwise: an option with a constant value. */
  function When(on: bool, text: string): (r: Option<string>)
    ensures r.Some? <==> on
    ensures on ==> r.value == text
  {
    if on then Some(text) else None
  }

  /**
   * One step of the renderer: the text so far followed by ` flag value` when
   * the value is present, and unchanged otherwise.
   */
  function AppendValue(s: string, flag: string, v: Option<string>): (r: string)
    ensures r == s + Group(flag, Value(v))
  {
    if v.Some? then s + ValueGroup(flag, v.value) else s
  }

  /**
   * One step of the renderer: the text so far followed by ` flag` when `on`
   * holds, and unchanged otherwise.
   */
  function AppendFlag(s: string, flag: string, on: bool): (r: string)
    ensures r == s + Group(flag, Switch(on))
  {
    if on then s + FlagGroup(flag) else s
  }
}
