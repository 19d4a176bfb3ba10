/**
 A stack as the mission runner needs to know it: which frames are in it. `LiveStack` is the
 stack itself, and is proved to come to this (`agent/darkview_agent/capture/stack.py`).
 */
module Stacks {
  /** How a frame was exposed. */
  datatype Frame = Frame(exposure: real, gain: int)

  /** What becomes of a frame: it joins, it is refused, or the stack starts again with it
      because its shape is another. */
  datatype StackVerdict = Accepted | Refused | Reshaped

  /** The frames averaged, the first of them the reference, and how many were refused. */
  datatype Stack = Stack(frames: seq<Frame>, rejected: nat) {
    function Add(frame: Frame, verdict: StackVerdict): (s: Stack)
      ensures 1 <= |s.frames| <= |frames| + 1
      ensures forall f :: f in s.frames ==> f == frame || f in frames
    {
      if frames == [] then Stack([frame], rejected)
      else match verdict
        case Accepted => Stack(frames + [frame], rejected)
        case Refused => Stack(frames, rejected + 1)
        case Reshaped => Stack([frame], 0)
    }

    predicate Becomes(frame: Frame, s: Stack) {
      s == Add(frame, Accepted) || s == Add(frame, Refused) || s == Add(frame, Reshaped)
    }
  }

  const EMPTY_STACK := Stack([], 0)
}
