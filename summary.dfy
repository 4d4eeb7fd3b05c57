/** The console summary helpers (Main.java): name lists as text, repeated rule lines and the
    number of distinct people reminded. */
module Summary {
  import opened Text
  import opened Model

  /** What an empty name list prints as. */
  const NONE_TEXT: string := "无"

  /** The `@name` mentions of a list, in order. */
  function Mentions(names: seq<string>): (mentions: seq<string>)
    ensures |mentions| == |names|
    ensures forall i :: 0 <= i < |names| ==> mentions[i] == "@" + names[i]
  {
    seq(|names|, i requires 0 <= i < |names| => "@" + names[i])
  }

  /** The text of a name list: the mentions joined by ", ", or the none marker for no names. */
  function FormattedList(names: seq<string>): string {
    if names == [] then NONE_TEXT else Join(Mentions(names), ", ")
  }

  /** Builds the text of a name list as the source's counting loop does. */
  method FormatList(list: seq<string>) returns (text: string)
    ensures text == FormattedList(list)
  {
    if |list| == 0 {
      return NONE_TEXT;
    }
    ghost var mentions := Mentions(list);
    text := "";
    for i := 0 to |list|
      invariant text == JoinedSoFar(mentions, i, ", ")
    {
      ghost var before := text;
      text := text + "@" + list[i];
      assert text == before + mentions[i];
      if i < |list| - 1 {
        text := text + ", ";
      }
      JoinedSoFarStep("", mentions, i, ", ");
      assert "" + JoinedSoFar(mentions, i, ", ") == before;
      assert "" + JoinedSoFar(mentions, i + 1, ", ") == JoinedSoFar(mentions, i + 1, ", ");
    }
    JoinedSoFarDone(mentions, ", ");
  }

  /** A non-empty list prints as `@` and its first name, then `, @` and each later name in order. */
  lemma FormattedListShape(names: seq<string>)
    requires names != []
    ensures FormattedList(names) == "@" + names[0]
              + if |names| == 1 then "" else ", " + FormattedList(names[1..])
  {
    var mentions := Mentions(names);
    assert mentions == [mentions[0]] + Mentions(names[1..]);
    JoinFront(mentions[0], Mentions(names[1..]), ", ");
  }

  /** The none marker appears exactly for the empty list. */
  lemma FormattedListNoneIffEmpty(names: seq<string>)
    ensures FormattedList(names) == NONE_TEXT <==> names == []
  {
    if names != [] {
      FormattedListShape(names);
      assert FormattedList(names)[0] == '@';
    }
  }

  /** `count` copies of `s`, end to end; none when `count` is not positive. */
  function Repeat(s: string, count: int): string
    decreases if count <= 0 then 0 else count
  {
    if count <= 0 then "" else Repeat(s, count - 1) + s
  }

  /** Builds `count` copies of `str` with the source's counting loop. */
  method RepeatString(str: string, count: int) returns (text: string)
    ensures text == Repeat(str, count)
  {
    text := "";
    var i := 0;
    while i < count
      invariant 0 <= i <= (if count > 0 then count else 0)
      invariant text == Repeat(str, i)
    {
      text := text + str;
      i := i + 1;
    }
  }

  /** `count` copies are `count * |s|` characters long, and empty for a non-positive count. */
  lemma {:induction false} RepeatLength(s: string, count: int)
    ensures count <= 0 ==> Repeat(s, count) == ""
    ensures count >= 0 ==> |Repeat(s, count)| == count * |s|
    decreases if count <= 0 then 0 else count
  {
    if count > 0 {
      RepeatLength(s, count - 1);
    }
  }

  /** Character `q * |s| + r` of the copies is character `r` of copy number `q`. */
  lemma {:induction false} RepeatAt(s: string, count: int, q: int, r: int)
    requires 0 <= q < count && 0 <= r < |s|
    ensures q * |s| + r < |Repeat(s, count)|
    ensures Repeat(s, count)[q * |s| + r] == s[r]
    decreases count
  {
    var previous := Repeat(s, count - 1);
    RepeatLength(s, count - 1);
    if q < count - 1 {
      RepeatAt(s, count - 1, q, r);
    } else {
      assert q * |s| == |previous|;
    }
  }

  /** The number of distinct people on any of the four lists. */
  method TotalReminderCount(mail: MailContent) returns (total: nat)
    ensures total == |Elements(mail.needDataAlert) + Elements(mail.needApprovalAlert)
                      + Elements(mail.needPurchaseAlert) + Elements(mail.needSealAlert)|
    ensures total <= |mail.needDataAlert| + |mail.needApprovalAlert|
                     + |mail.needPurchaseAlert| + |mail.needSealAlert|
    ensures NoDuplicates(mail.needDataAlert) ==> |mail.needDataAlert| <= total
    ensures NoDuplicates(mail.needApprovalAlert) ==> |mail.needApprovalAlert| <= total
    ensures NoDuplicates(mail.needPurchaseAlert) ==> |mail.needPurchaseAlert| <= total
    ensures NoDuplicates(mail.needSealAlert) ==> |mail.needSealAlert| <= total
  {
    var d := Elements(mail.needDataAlert);
    var a := Elements(mail.needApprovalAlert);
    var p := Elements(mail.needPurchaseAlert);
    var s := Elements(mail.needSealAlert);
    var allNames: set<string> := {};
    allNames := allNames + d;
    allNames := allNames + a;
    allNames := allNames + p;
    allNames := allNames + s;
    SubsetSize(d, allNames);
    SubsetSize(a, allNames);
    SubsetSize(p, allNames);
    SubsetSize(s, allNames);
    total := |allNames|;
  }

  lemma SubsetSize(small: set<string>, big: set<string>)
    requires small <= big
    ensures |small| <= |big|
  {
    assert big == small + (big - small);
  }
}
