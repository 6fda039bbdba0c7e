/** `yes_or_no` from both scripts: how a typed reply and the default turn
    into a yes/no decision, and how the second script answers for itself
    when it is not run interactively. */
module Prompt {

  import opened Strings

  /** The letter used when the reply is blank: 'n' when the default is no. */
  function DefaultAnswer(defaultNo: bool): char {
    if defaultNo then 'n' else 'y'
  }

  /** The typed reply, lower-cased and stripped, or the default letter when
      nothing is left (Python's `... or default_answer`). */
  function Reply(typed: string, defaultNo: bool): (r: string)
    ensures r != []
  {
    var t := Strip(Lower(typed));
    if t == [] then [DefaultAnswer(defaultNo)] else t
  }

  /** The decision on a non-empty reply: its first character, 'y' or 'n',
      and anything else means "not the default-no". */
  function Decide(reply: string, defaultNo: bool): bool
    requires reply != []
  {
    if reply[0] == 'y' then true
    else if reply[0] == 'n' then false
    else !defaultNo
  }

  /** `yes_or_no` of the first script: the reply is always typed. The
      answer departs from the default only when the reply starts with the
      other letter. */
  function YesOrNo(typed: string, defaultNo: bool): (r: bool)
    ensures r != !defaultNo ==> Reply(typed, defaultNo)[0] == DefaultAnswer(!defaultNo)
  {
    Decide(Reply(typed, defaultNo), defaultNo)
  }

  /** `yes_or_no` of the second script: when `interactive` is false the
      reply is the default letter and nothing is read, so only an
      interactive reply starting with the other letter departs from the
      default. */
  function YesOrNoV2(interactive: bool, typed: string, defaultNo: bool): (r: bool)
    ensures r != !defaultNo ==> interactive && Reply(typed, defaultNo)[0] == DefaultAnswer(!defaultNo)
  {
    var reply := if !interactive then [DefaultAnswer(defaultNo)] else Reply(typed, defaultNo);
    Decide(reply, defaultNo)
  }

  /** A reply made only of whitespace (the empty reply among them) gives
      the default. */
  lemma BlankReplyGivesDefault(typed: string, defaultNo: bool)
    requires forall i :: 0 <= i < |typed| ==> IsSpace(typed[i])
    ensures YesOrNo(typed, defaultNo) == !defaultNo
  {
    var l := Lower(typed);
    forall i | 0 <= i < |l| ensures IsSpace(l[i]) {
      LowerCharKeepsSpace(typed[i]);
    }
    StripAllSpace(l);
  }

  /** Otherwise the first non-whitespace character decides: 'y' or 'Y'
      means yes, 'n' or 'N' means no, anything else means "not the
      default-no". With BlankReplyGivesDefault this covers every reply. */
  lemma FirstLetterDecides(typed: string, defaultNo: bool, k: nat)
    requires k < |typed| && !IsSpace(typed[k])
    requires forall i :: 0 <= i < k ==> IsSpace(typed[i])
    ensures YesOrNo(typed, defaultNo) ==
      (if typed[k] == 'y' || typed[k] == 'Y' then true
       else if typed[k] == 'n' || typed[k] == 'N' then false
       else !defaultNo)
  {
    var l := Lower(typed);
    forall i | 0 <= i < k ensures IsSpace(l[i]) {
      LowerCharKeepsSpace(typed[i]);
    }
    LowerCharKeepsSpace(typed[k]);
    StripFirst(l, k);
  }

  /** Not interactive: the answer is always the opposite of `defaultNo`. */
  lemma NonInteractiveAnswersDefault(typed: string, defaultNo: bool)
    ensures YesOrNoV2(false, typed, defaultNo) == !defaultNo
  {
  }

  /** Interactive: the second script behaves as the first. */
  lemma InteractiveMatchesFirstScript(typed: string, defaultNo: bool)
    ensures YesOrNoV2(true, typed, defaultNo) == YesOrNo(typed, defaultNo)
  {
  }
}
