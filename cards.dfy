/** The decision card as app.js and shared/js/operator-ui.js hold it, the
    fixed sample queue both of them load, and the list rows both draw. */
module Cards {
  import opened QueueCore

  /** One decision item: where it came from, how recent, a headline and a body. */
  datatype Item = Item(source: string, time: string, title: string, content: string)

  /** The two layouts of app.js and shared/js/operator-ui.js: one card at
      a time, or the card beside the list of the whole queue. */
  datatype Mode = Focus | List

  function Min(a: int, b: int): int
  {
    if a <= b then a else b
  }

  const PreviewLength: nat := 60
  const Ellipsis: string := "..."

  /** `content.substring(0, 60)` followed by an ellipsis. The ellipsis is
      added even when nothing was cut. */
  function Preview(content: string): (r: string)
    ensures |r| == Min(PreviewLength, |content|) + |Ellipsis|
    ensures r[..|r| - |Ellipsis|] == content[..|r| - |Ellipsis|]
    ensures r[|r| - |Ellipsis|..] == Ellipsis
    ensures |content| <= PreviewLength ==> r == content + Ellipsis
  {
    content[..Min(PreviewLength, |content|)] + Ellipsis
  }

  /** One row of the sidebar list. */
  datatype Row = Row(source: string, time: string, title: string, preview: string, active: bool)

  /** A row showing one item: its source, time and title as they are, the
      preview of its content, and the active mark as asked. */
  function ItemRow(item: Item, active: bool): (r: Row)
    ensures r.source == item.source && r.time == item.time && r.title == item.title
    ensures r.preview == Preview(item.content) && r.active == active
    ensures r.preview[..|r.preview| - |Ellipsis|] == item.content[..Min(PreviewLength, |item.content|)]
  {
    Row(item.source, item.time, item.title, Preview(item.content), active)
  }

  /** The sidebar list: one row per item, in queue order, each showing its
      item, and the row at `index` the one marked active. */
  function Rows(queue: seq<Item>, index: nat): (r: seq<Row>)
    ensures |r| == |queue|
    ensures forall k :: 0 <= k < |r| ==>
      r[k].source == queue[k].source && r[k].time == queue[k].time &&
      r[k].title == queue[k].title && r[k].preview == Preview(queue[k].content)
    ensures forall k :: 0 <= k < |r| ==> (r[k].active <==> k == index)
  {
    seq(|queue|, k requires 0 <= k < |queue| => ItemRow(queue[k], k == index))
  }

  /** With the index in range, exactly one row is marked active; with the
      index out of range, none is. */
  lemma ExactlyOneActive(queue: seq<Item>, index: nat)
    ensures var rows := Rows(queue, index);
      (set k | 0 <= k < |rows| && rows[k].active) == if index < |queue| then {index} else {}
  {
    var rows := Rows(queue, index);
    var active := set k | 0 <= k < |rows| && rows[k].active;
    if index < |queue| {
      assert rows[index].active;
      assert active == {index};
    } else {
      assert active == {};
    }
  }

  /** The eight sample items: `loadSampleData` in app.js and `getSampleData`
      in shared/js/operator-ui.js hold the same list. */
  function SampleData(): (r: seq<Item>)
    ensures |r| == 8
  {
    [Sample1, Sample2, Sample3, Sample4, Sample5, Sample6, Sample7, Sample8]
  }

  const Sample1: Item := Item("Telegram", "2 min ago", "Product Launch Discussion",
    "Hey! I wanted to discuss the timeline for the new product launch. We have three potential dates, and I need your input on which one works best for the marketing campaign. Also, should we coordinate with the sales team first?")
  const Sample2: Item := Item("Claude Code", "5 min ago", "API Implementation Review",
    "The REST API implementation is complete. I've added authentication, rate limiting, and comprehensive error handling. The code is ready for your review. Should I proceed with deployment to staging?")
  const Sample3: Item := Item("X (Twitter)", "10 min ago", "Partnership Opportunity",
    "We're looking to partner with innovative companies in the AI space. Your recent work caught our attention. Would you be interested in a quick call this week to explore potential collaboration?")
  const Sample4: Item := Item("VK", "15 min ago", "Team Meeting Reschedule",
    "The Thursday team meeting needs to be rescheduled due to a conflict. Can we move it to Friday at 2 PM? Please confirm if this works for your schedule.")
  const Sample5: Item := Item("Telegram", "20 min ago", "Bug Report - Critical",
    "Users are reporting issues with the login functionality. The error happens intermittently when using OAuth. This needs immediate attention. Should I create a hotfix branch?")
  const Sample6: Item := Item("AI Assistant", "25 min ago", "Code Optimization Suggestions",
    "I've analyzed the codebase and found several optimization opportunities that could improve performance by 30-40%. Would you like me to implement these changes or would you prefer to review them first?")
  const Sample7: Item := Item("Telegram", "30 min ago", "Client Feedback",
    "The client loved the prototype! They have a few minor adjustments they'd like to see. The main request is to add dark mode support. Should I prioritize this for the next sprint?")
  const Sample8: Item := Item("X (Twitter)", "35 min ago", "Conference Speaking Invitation",
    "We'd love to have you speak at TechConf 2024 about your work in AI-assisted development. The event is in San Francisco next month. Are you interested?")
}
