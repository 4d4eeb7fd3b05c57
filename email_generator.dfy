/** The decision rules of the HTML report (EmailGenerator.java): the reminder block, one
    reminder section, the urgency text, the row and level classes and the footer counts. */
module EmailGenerator {
  import opened Options
  import opened Text
  import opened Model

  // ---------------------------------------------------------------- markup pieces

  const SECTION_OPEN: string := "<div class=\"alert-section\">"
  const TITLE_OPEN: string := "<div class=\"alert-title\">"
  const CONTENT_OPEN: string := "<div class=\"alert-content\">"
  const DIV_CLOSE: string := "</div>"
  const NAME_OPEN: string := "<span class=\"person-name\">@"
  const NAME_CLOSE: string := "</span>"
  const NAME_SEPARATOR: string := ", "

  const TODO_HEADING: string := "<h2>📢 待办事项提醒</h2>"
  const DATA_TITLE: string := "📋 以下同事请及时整理人月框架协议资料："
  const APPROVAL_TITLE: string := "📝 以下同事请及时完成事财权审批："
  const PURCHASE_TITLE: string := "🛒 以下同事请及时完成合同采购："
  const SEAL_TITLE: string := "🖋️ 以下同事请及时完成合同用印："

  /** The block shown when no reminder list has anyone on it. */
  const ALL_NORMAL: string :=
    "<div class=\"alert-section\">" + "<div class=\"alert-title\">✅ 所有事项正常</div>"
    + "<div class=\"alert-content\">目前没有需要紧急处理的事项。</div>" + "</div>"

  const COMPLETED_CLASS: string := "completed"
  const URGENT_CLASS: string := "urgent"

  // ---------------------------------------------------------------- reminder sections

  /** One name mention of a reminder section. */
  function PersonSpans(names: seq<string>): (spans: seq<string>)
    ensures |spans| == |names|
    ensures forall i :: 0 <= i < |names| ==> spans[i] == NAME_OPEN + names[i] + NAME_CLOSE
  {
    seq(|names|, i requires 0 <= i < |names| => NAME_OPEN + names[i] + NAME_CLOSE)
  }

  /** The markup of one reminder section: nothing for an empty list, otherwise the title and
      one `@name` mention per entry, in list order, separated by ", ". */
  function AlertSection(title: string, names: seq<string>): string {
    if names == [] then ""
    else SECTION_OPEN + TITLE_OPEN + title + DIV_CLOSE + CONTENT_OPEN
         + Join(PersonSpans(names), NAME_SEPARATOR) + DIV_CLOSE + DIV_CLOSE
  }

  /** A section for `n` names holds exactly `n - 1` separators besides its mentions and markup. */
  lemma AlertSectionLength(title: string, names: seq<string>)
    requires names != []
    ensures |AlertSection(title, names)| ==
            |SECTION_OPEN + TITLE_OPEN + title + DIV_CLOSE + CONTENT_OPEN + DIV_CLOSE + DIV_CLOSE|
            + TotalLength(PersonSpans(names)) + (|names| - 1) * |NAME_SEPARATOR|
  {
    JoinLength(PersonSpans(names), NAME_SEPARATOR);
  }

  /** Appends the reminder section for `names` under `title` to `html`. */
  method AddAlertSection(html: string, title: string, names: seq<string>) returns (out: string)
    ensures out == html + AlertSection(title, names)
  {
    out := html;
    if |names| > 0 {
      out := out + SECTION_OPEN;
      out := out + TITLE_OPEN + title + DIV_CLOSE;
      out := out + CONTENT_OPEN;
      out := AppendMentions(out, names);
      out := out + DIV_CLOSE;
      out := out + DIV_CLOSE;
    }
  }

  /** The mention loop of a section: each `@name` in order, a separator after all but the last. */
  method AppendMentions(html: string, names: seq<string>) returns (out: string)
    ensures out == html + Join(PersonSpans(names), NAME_SEPARATOR)
  {
    out := html;
    ghost var spans := PersonSpans(names);
    for i := 0 to |names|
      invariant out == html + JoinedSoFar(spans, i, NAME_SEPARATOR)
    {
      var mention := NAME_OPEN + names[i] + NAME_CLOSE;
      out := out + mention;
      if i < |names| - 1 {
        out := out + NAME_SEPARATOR;
      }
      JoinedSoFarStep(html, spans, i, NAME_SEPARATOR);
    }
    JoinedSoFarDone(spans, NAME_SEPARATOR);
  }

  /** No reminder list has anyone on it. */
  predicate AllClear(mail: MailContent) {
    mail.needDataAlert == [] && mail.needApprovalAlert == []
    && mail.needPurchaseAlert == [] && mail.needSealAlert == []
  }

  /** The reminder part of the report: the heading and four sections when someone is to be
      reminded, the all-normal block otherwise. */
  method AddReminders(html: string, mail: MailContent) returns (out: string)
    ensures !AllClear(mail) ==>
      out == html + TODO_HEADING + AlertSection(DATA_TITLE, mail.needDataAlert)
             + AlertSection(APPROVAL_TITLE, mail.needApprovalAlert)
             + AlertSection(PURCHASE_TITLE, mail.needPurchaseAlert)
             + AlertSection(SEAL_TITLE, mail.needSealAlert)
    ensures out == html + ALL_NORMAL <==> AllClear(mail)
  {
    if mail.needDataAlert != [] || mail.needApprovalAlert != []
       || mail.needPurchaseAlert != [] || mail.needSealAlert != [] {
      out := html + TODO_HEADING;
      out := AddAlertSection(out, DATA_TITLE, mail.needDataAlert);
      out := AddAlertSection(out, APPROVAL_TITLE, mail.needApprovalAlert);
      out := AddAlertSection(out, PURCHASE_TITLE, mail.needPurchaseAlert);
      out := AddAlertSection(out, SEAL_TITLE, mail.needSealAlert);
      HeadingIsNotAllNormal(html, out[|html| + |TODO_HEADING|..]);
    } else {
      out := html + ALL_NORMAL;
    }
  }

  lemma HeadingIsNotAllNormal(html: string, rest: string)
    ensures html + TODO_HEADING + rest != html + ALL_NORMAL
  {
    assert (html + TODO_HEADING + rest)[|html| + 1] == 'h';
    assert (html + ALL_NORMAL)[|html| + 1] == 'd';
  }

  // ---------------------------------------------------------------- table rows

  /** The urgency column text; a missing or unknown level reads as the lowest tier. */
  function UrgencyText(level: Option<int>): (text: string)
    ensures text == "非常紧急" <==> level == Some(1)
    ensures text == "紧急" <==> level == Some(2)
    ensures text == "中等" <==> level == Some(3)
    ensures text == "一般" <==> level == Some(4)
    ensures text == "较低" <==> !(level.Some? && 1 <= level.value <= 4)
  {
    if level.None? then "较低"
    else
      match level.value
      case 1 => "非常紧急"
      case 2 => "紧急"
      case 3 => "中等"
      case 4 => "一般"
      case 5 => "较低"
      case _ => "较低"
  }

  /** The row is drawn as completed: its progress mentions the completed label anywhere. */
  predicate ShowsCompleted(progress: Option<string>) {
    progress.Some? && Contains(progress.value, COMPLETED)
  }

  /** The record counts as urgent: it has level 1 or 2 (or lower). */
  predicate IsUrgent(level: Option<int>) {
    level.Some? && level.value <= 2
  }

  /** The CSS class of a table row: completed wins over urgent; otherwise none. */
  function RowClass(progress: Option<string>, level: Option<int>): (cls: string)
    ensures cls == COMPLETED_CLASS <==> ShowsCompleted(progress)
    ensures cls == URGENT_CLASS <==> !ShowsCompleted(progress) && IsUrgent(level)
    ensures cls == "" <==> !ShowsCompleted(progress) && !IsUrgent(level)
  {
    if ShowsCompleted(progress) then COMPLETED_CLASS
    else if IsUrgent(level) then URGENT_CLASS
    else ""
  }

  /** The row classes of the table, one per record, as the row loop assigns them. */
  method RowClasses(table: seq<FrameworkAgreement>) returns (classes: seq<string>)
    ensures |classes| == |table|
    ensures forall i :: 0 <= i < |table| ==>
      classes[i] == RowClass(table[i].currentProgress, table[i].alertLevel)
  {
    classes := [];
    for i := 0 to |table|
      invariant |classes| == i
      invariant forall j :: 0 <= j < i ==>
        classes[j] == RowClass(table[j].currentProgress, table[j].alertLevel)
    {
      var agreement := table[i];
      var rowClass := "";
      var currentProgress := agreement.currentProgress;
      if currentProgress.Some? && Contains(currentProgress.value, COMPLETED) {
        rowClass := COMPLETED_CLASS;
      } else if agreement.alertLevel.Some? && agreement.alertLevel.value <= 2 {
        rowClass := URGENT_CLASS;
      }
      classes := classes + [rowClass];
    }
  }

  /** The number in the `level-N` class of the urgency cell: the level, or 5 without one. */
  function CssLevel(level: Option<int>): (n: int)
    ensures level.Some? ==> n == level.value
    ensures level.None? ==> n == 5
  {
    if level.Some? then level.value else 5
  }

  /** The cell's colour class and its text always name the same tier. */
  lemma CssLevelMatchesText(level: Option<int>)
    ensures UrgencyText(Some(CssLevel(level))) == UrgencyText(level)
  {
  }

  // ---------------------------------------------------------------- footer counts

  /** The footer's completed count: records whose progress mentions the completed label. */
  function CompletedCount(table: seq<FrameworkAgreement>): (n: nat)
    reads table
    ensures n <= |table|
    decreases |table|
  {
    if table == [] then 0
    else (if ShowsCompleted(table[0].currentProgress) then 1 else 0) + CompletedCount(table[1..])
  }

  /** The footer's urgent count: records with level at most 2, completed or not. */
  function UrgentCount(table: seq<FrameworkAgreement>): (n: nat)
    reads table
    ensures n <= |table|
    decreases |table|
  {
    if table == [] then 0
    else (if IsUrgent(table[0].alertLevel) then 1 else 0) + UrgentCount(table[1..])
  }

  /** The completed count is the number of rows drawn green; the urgent count is at least the
      number of rows drawn red (a completed urgent record is counted but drawn green). */
  lemma {:induction false} CountsMatchRowClasses(table: seq<FrameworkAgreement>, classes: seq<string>)
    requires |classes| == |table|
    requires forall i :: 0 <= i < |table| ==>
      classes[i] == RowClass(table[i].currentProgress, table[i].alertLevel)
    ensures Count(classes, COMPLETED_CLASS) == CompletedCount(table)
    ensures Count(classes, URGENT_CLASS) <= UrgentCount(table)
    decreases |table|
  {
    if table != [] {
      CountsMatchRowClasses(table[1..], classes[1..]);
    }
  }
}
