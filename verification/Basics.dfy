/** Small shared vocabulary. */
module Basics {

  datatype Option<+T> = None | Some(value: T)

  // The characters str.strip() removes, restricted to ASCII and the ideographic space.
  predicate IsSpace(c: char) {
    c == ' ' || c == '\n' || c == '\t' || c == '\r' || c as int == 0x0B || c as int == 0x0C || c as int == 0x3000
  }

  predicate Blank(s: string) {
    forall i :: 0 <= i < |s| ==> IsSpace(s[i])
  }

  function StripLeft(s: string): string {
    if s != "" && IsSpace(s[0]) then StripLeft(s[1..]) else s
  }

  function StripRight(s: string): string {
    if s != "" && IsSpace(s[|s| - 1]) then StripRight(s[..|s| - 1]) else s
  }

  function Strip(s: string): string {
    StripRight(StripLeft(s))
  }

  lemma {:induction false} StripLeftBlank(s: string)
    ensures Blank(StripLeft(s)) <==> Blank(s)
    ensures StripLeft(s) == "" <==> Blank(s)
  {
    if s != "" && IsSpace(s[0]) {
      StripLeftBlank(s[1..]);
      assert Blank(s[1..]) ==> Blank(s);
      assert s[1..] == [] ==> Blank(s);
    } else if s != "" {
      assert !Blank(s);
    }
  }

  lemma {:induction false} StripRightBlank(s: string)
    ensures Blank(StripRight(s)) <==> Blank(s)
    ensures StripRight(s) == "" <==> Blank(s)
  {
    if s != "" && IsSpace(s[|s| - 1]) {
      StripRightBlank(s[..|s| - 1]);
      assert Blank(s[..|s| - 1]) ==> Blank(s);
    } else if s != "" {
      assert !Blank(s);
    }
  }

  // A stripped text is empty exactly when the text was blank, and otherwise it is not blank.
  lemma StripBlank(s: string)
    ensures Strip(s) == "" <==> Blank(s)
    ensures Blank(Strip(s)) <==> Blank(s)
  {
    StripLeftBlank(s);
    StripRightBlank(StripLeft(s));
  }
}
