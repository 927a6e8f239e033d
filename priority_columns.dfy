/** The priority board's three columns: each one's header and the tickets of its priority. */
module PriorityColumns {
  import opened Text
  import opened Seqs
  import opened Types
  import opened Constants

  /** `PriorityLevel` */
  datatype PriorityLevel = High | Medium | Low

  function LevelName(p: PriorityLevel): (s: string)
    ensures s in PriorityLevels
  {
    match p
    case High => "high"
    case Medium => "medium"
    case Low => "low"
  }

  /** The names are those of `PRIORITY_LEVELS`, in the same order. */
  lemma LevelNamesArePriorityLevels()
    ensures [LevelName(High), LevelName(Medium), LevelName(Low)] == PriorityLevels
  {
  }

  /** The column order of the board. */
  const Levels: seq<PriorityLevel> := [High, Medium, Low]

  /** `PriorityColumn`, without the theme colour. */
  datatype Column = Column(priority: PriorityLevel, title: string, icon: string, tickets: seq<Ticket>)

  /** The capitalised priority followed by " Priority". */
  function Title(p: PriorityLevel): string {
    Capitalize(LevelName(p)) + " Priority"
  }

  lemma Titles()
    ensures Title(High) == "High Priority"
    ensures Title(Medium) == "Medium Priority"
    ensures Title(Low) == "Low Priority"
  {
    TitleHigh();
    TitleMedium();
    TitleLow();
  }

  lemma TitleHigh()
    ensures Title(High) == "High Priority"
  {
    assert Capitalize("high") == "High";
  }

  lemma TitleMedium()
    ensures Title(Medium) == "Medium Priority"
  {
    assert Capitalize("medium") == "Medium";
  }

  lemma TitleLow()
    ensures Title(Low) == "Low Priority"
  {
    assert Capitalize("low") == "Low";
  }

  /** A red, a yellow and a green circle. */
  function Icon(p: PriorityLevel): string {
    match p
    case High => "\U{1F534}"
    case Medium => "\U{1F7E1}"
    case Low => "\U{1F7E2}"
  }

  /** The three icons tell the columns apart. */
  lemma IconsDistinct(p: PriorityLevel, q: PriorityLevel)
    requires p != q
    ensures Icon(p) != Icon(q)
  {
  }

  function WithPriority(p: PriorityLevel): Ticket -> bool {
    (t: Ticket) => t.priority == LevelName(p)
  }

  /** `priorityColumns`: high, medium, low, each with the tickets of that priority in input order. */
  function PriorityColumnsOf(tickets: seq<Ticket>): (r: seq<Column>)
    ensures |r| == 3
    ensures forall k :: 0 <= k < 3 ==> r[k].priority == Levels[k]
    ensures forall k :: 0 <= k < 3 ==> r[k].title == Title(Levels[k]) && r[k].icon == Icon(Levels[k])
    ensures forall k :: 0 <= k < 3 ==> r[k].tickets == Filter(tickets, WithPriority(Levels[k]))
    ensures forall k, t :: 0 <= k < 3 ==> (t in r[k].tickets <==> t in tickets && t.priority == LevelName(Levels[k]))
  {
    seq(3, k requires 0 <= k < 3 =>
      Column(Levels[k], Title(Levels[k]), Icon(Levels[k]), Filter(tickets, WithPriority(Levels[k]))))
  }

  /** With only valid priorities, every ticket is in exactly one column and none is lost or repeated. */
  lemma ColumnsPartitionTickets(tickets: seq<Ticket>)
    requires forall t :: t in tickets ==> t.priority in PriorityLevels
    ensures var r := PriorityColumnsOf(tickets);
      && multiset(r[0].tickets) + multiset(r[1].tickets) + multiset(r[2].tickets) == multiset(tickets)
      && |r[0].tickets| + |r[1].tickets| + |r[2].tickets| == |tickets|
  {
    FilterPartition3(tickets, WithPriority(High), WithPriority(Medium), WithPriority(Low));
  }

  /** A ticket whose priority is not a level shows up in no column. */
  lemma UnknownPriorityIsHidden(tickets: seq<Ticket>, t: Ticket)
    requires t.priority !in PriorityLevels
    ensures forall c :: c in PriorityColumnsOf(tickets) ==> t !in c.tickets
  {
    var r := PriorityColumnsOf(tickets);
    forall c | c in r ensures t !in c.tickets {
      var k :| 0 <= k < 3 && r[k] == c;
      assert LevelName(Levels[k]) in PriorityLevels;
    }
  }
}
