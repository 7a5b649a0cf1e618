/** The resource table of the dashboard (package ui): the `ResourceView`
    state (resources, kind, size, and the table widget it owns), the key
    dispatcher, the column layout, the row formatter and the age format.

    The table widget (a bubbles table.Model) is a value the view holds and
    replaces; its own behaviour is foreign and is written out below as the
    `Table` datatype under the assumptions stated on it. */
module Ui {
  import opened Base
  import opened K8s

  /** The configuration the view reads (config.UI). */
  datatype UiConfig = UiConfig(columnsName: int, columnsStatus: int, showNamespace: bool)

  datatype Column = Column(title: string, width: int)

  type Row = seq<string>

  function Min(a: int, b: int): int { if a <= b then a else b }

  function Max(a: int, b: int): int { if a >= b then a else b }

  /** The widget's clamp: min(max(v, low), high). */
  function Clamp(v: int, low: int, high: int): int { Min(Max(v, low), high) }

  // ---------------------------------------------------------------------------
  // Keys and commands
  // ---------------------------------------------------------------------------

  /** A key message: the key types the view switches on, and every other key
      by its String() name ("j", "ctrl+d", "G", ...). */
  datatype Key = Down | Up | Left | Right | PgDown | PgUp | Home | End | Enter | Space | Named(name: string)

  datatype Msg = KeyMsg(key: Key) | OtherMsg

  /** The command Update hands back: none, or whatever the widget answered
      to the key it was given. */
  datatype Cmd = NoCmd | WidgetCmd(key: Key)

  // ---------------------------------------------------------------------------
  // The table widget
  // ---------------------------------------------------------------------------

  /** The bubbles table model as the view uses it. ASSUMED widget behaviour
      (not part of this model's source): MoveDown/MoveUp clamp the cursor to
      [0, len(rows) - 1]; GotoTop is MoveUp(cursor) and GotoBottom is
      MoveDown(len(rows)); the down/up keys move one row, pgdown/pgup move by
      the height, other keys leave the cursor alone; SetRows, SetColumns and
      SetHeight leave the cursor alone. */
  datatype Table = Table(columns: seq<Column>, rows: seq<Row>, cursor: int, height: int)
  {
    function MoveDown(n: int): Table
    {
      this.(cursor := Clamp(cursor + n, 0, |rows| - 1))
    }

    function MoveUp(n: int): Table
    {
      this.(cursor := Clamp(cursor - n, 0, |rows| - 1))
    }

    function GotoTop(): (t: Table)
      ensures |rows| > 0 ==> t.cursor == 0
    {
      MoveUp(cursor)
    }

    function GotoBottom(): (t: Table)
      ensures |rows| > 0 && cursor >= -1 ==> t.cursor == |rows| - 1
    {
      MoveDown(|rows|)
    }

    function HandleKey(k: Key): Table
    {
      match k
      case Down => MoveDown(1)
      case Up => MoveUp(1)
      case PgDown => MoveDown(height)
      case PgUp => MoveUp(height)
      case _ => this
    }
  }

  /** `k` single down-steps, as the "M" loop issues them. */
  function StepDown(t: Table, k: nat): Table
  {
    if k == 0 then t else StepDown(t, k - 1).HandleKey(Down)
  }

  /** Down-steps change nothing but the cursor, which stays at or above -1. */
  lemma {:induction false} StepDownFrame(t: Table, k: nat)
    ensures StepDown(t, k).rows == t.rows && StepDown(t, k).columns == t.columns
    ensures StepDown(t, k).height == t.height
    ensures k > 0 ==> StepDown(t, k).cursor >= -1
  {
    if k > 0 {
      StepDownFrame(t, k - 1);
    }
  }

  /** From any cursor the view can hold (-1 included, as after a down-key
      on an empty table), k >= 1 down-steps land on min(cursor + k, last row). */
  lemma {:induction false} StepDownCursor(t: Table, k: nat)
    requires t.cursor >= -1
    ensures k > 0 ==> StepDown(t, k).cursor == Min(t.cursor + k, |t.rows| - 1)
  {
    if k > 0 {
      StepDownCursor(t, k - 1);
      StepDownFrame(t, k - 1);
    }
  }

  // ---------------------------------------------------------------------------
  // Key dispatch
  // ---------------------------------------------------------------------------

  /** What a message asks the view to do. */
  datatype Action = Forward(key: Key) | ToTop | ToBottom | ToMiddle | NoAction

  function KeyAction(msg: Msg): Action
  {
    match msg
    case OtherMsg => NoAction
    case KeyMsg(k) =>
      match k
      case Down => Forward(Down)
      case Up => Forward(Up)
      case Left => Forward(Left)
      case Right => Forward(Right)
      case PgDown => Forward(PgDown)
      case PgUp => Forward(PgUp)
      case Home => ToTop
      case End => ToBottom
      case Enter => NoAction
      case Space => NoAction
      case Named(s) =>
        if s == "j" then Forward(Down)
        else if s == "k" then Forward(Up)
        else if s == "ctrl+d" then Forward(PgDown)
        else if s == "ctrl+u" then Forward(PgUp)
        else if s == "g" || s == "H" then ToTop
        else if s == "G" || s == "L" then ToBottom
        else if s == "M" then ToMiddle
        else NoAction
  }

  /** The key bindings: home/g/H jump to the first row, end/G/L to the last,
      M to the middle; j/k and ctrl+d/ctrl+u stand for the arrow and page
      keys; enter, space and any other key do nothing. */
  lemma KeyBindings(other: string)
    requires other !in {"j", "k", "ctrl+d", "ctrl+u", "g", "G", "H", "M", "L"}
    ensures KeyAction(KeyMsg(Home)) == ToTop && KeyAction(KeyMsg(Named("g"))) == ToTop
    ensures KeyAction(KeyMsg(Named("H"))) == ToTop
    ensures KeyAction(KeyMsg(End)) == ToBottom && KeyAction(KeyMsg(Named("G"))) == ToBottom
    ensures KeyAction(KeyMsg(Named("L"))) == ToBottom
    ensures KeyAction(KeyMsg(Named("M"))) == ToMiddle
    ensures KeyAction(KeyMsg(Named("j"))) == Forward(Down) && KeyAction(KeyMsg(Named("k"))) == Forward(Up)
    ensures KeyAction(KeyMsg(Named("ctrl+d"))) == Forward(PgDown)
    ensures KeyAction(KeyMsg(Named("ctrl+u"))) == Forward(PgUp)
    ensures KeyAction(KeyMsg(Enter)) == NoAction && KeyAction(KeyMsg(Space)) == NoAction
    ensures KeyAction(KeyMsg(Named(other))) == NoAction && KeyAction(OtherMsg) == NoAction
  {
  }

  // ---------------------------------------------------------------------------
  // Formatting
  // ---------------------------------------------------------------------------

  /** The one-character ellipsis marker. */
  const Ellipsis: string := "\U{2026}"

  const Day: int := 24 * Hour

  /** Keeps a string of at most `limit` characters; a longer one becomes
      its first `keep` characters and the ellipsis. */
  function Truncate(s: string, limit: nat, keep: nat): (r: string)
    requires keep < limit
    ensures |s| <= limit ==> r == s
    ensures |s| > limit ==> r == s[..keep] + Ellipsis
    ensures |r| <= limit
  {
    if |s| > limit then s[..keep] + Ellipsis else s
  }

  /** The status cell: empty -> "Unknown", suspended -> "Suspended", then
      more than 12 characters -> 9 characters and the ellipsis. */
  function StatusCell(status: string, suspended: bool): (cell: string)
    ensures suspended ==> cell == "Suspended"
    ensures !suspended && status == "" ==> cell == "Unknown"
    ensures !suspended && 0 < |status| <= 12 ==> cell == status
    ensures !suspended && |status| > 12 ==> cell == status[..9] + Ellipsis
    ensures 0 < |cell| <= 12
  {
    var s := if status == "" then "Unknown" else status;
    var s := if suspended then "Suspended" else s;
    Truncate(s, 12, 9)
  }

  /** The message cell: more than 35 characters -> 32 and the ellipsis. */
  function MessageCell(message: string): (cell: string)
    ensures |message| <= 35 ==> cell == message
    ensures |message| > 35 ==> cell == message[..32] + Ellipsis
    ensures |cell| <= 35
  {
    Truncate(message, 35, 32)
  }

  /** The unit a formatted age ends with, in nanoseconds. */
  function AgeUnit(suffix: char): int
  {
    if suffix == 's' then Second
    else if suffix == 'm' then Minute
    else if suffix == 'h' then Hour
    else Day
  }

  /** formatAge: the largest of s, m, h, d that the duration reaches (seconds
      below a minute, negative durations included), with the count truncated
      toward zero. */
  function FormatAge(d: int): (age: string)
    ensures |age| >= 2
    ensures age[|age| - 1] == 's' <==> d < Minute
    ensures age[|age| - 1] == 'm' <==> Minute <= d < Hour
    ensures age[|age| - 1] == 'h' <==> Hour <= d < Day
    ensures age[|age| - 1] == 'd' <==> Day <= d
  {
    if d < Minute then IntToDecimal(GoDiv(d, Second)) + "s"
    else if d < Hour then NatToDecimal(d / Minute) + "m"
    else if d < Day then NatToDecimal(d / Hour) + "h"
    else NatToDecimal(d / Day) + "d"
  }

  /** `s` is a count followed by a unit letter, and that many whole units
      bracket the duration `d`. */
  ghost predicate ReadsBackAs(s: string, d: int)
  {
    |s| >= 2 && IsDigits(s[..|s| - 1]) &&
    var n := ParseDecimal(s[..|s| - 1]);
    var u := AgeUnit(s[|s| - 1]);
    n * u <= d < n * u + u
  }

  /** A count of whole units printed in front of the unit's letter reads
      back as a count that brackets the duration. */
  lemma ReadBackCount(d: int, u: int, c: char)
    requires d >= 0 && u > 0 && AgeUnit(c) == u
    ensures ReadsBackAs(NatToDecimal(d / u) + [c], d)
  {
    var n := d / u;
    var s := NatToDecimal(n) + [c];
    assert s[..|s| - 1] == NatToDecimal(n);
    DecimalRoundTrip(n);
    WholeUnits(d, u, n);
  }

  /** The count of whole units brackets the duration. */
  lemma WholeUnits(d: int, u: int, n: int)
    requires d >= 0 && u > 0 && n == d / u
    ensures n * u <= d < n * u + u
  {
  }

  /** The unit letter formatAge picks for a non-negative age. */
  function AgeLetter(d: int): char
  {
    if d < Minute then 's' else if d < Hour then 'm' else if d < Day then 'h' else 'd'
  }

  /** A non-negative age is printed as its whole units and the unit letter. */
  lemma FormatAgeParts(d: int)
    requires d >= 0
    ensures FormatAge(d) == NatToDecimal(d / AgeUnit(AgeLetter(d))) + [AgeLetter(d)]
  {
  }

  /** Reading a formatted age back: the count times the unit is the age
      rounded down to that unit. */
  lemma FormatAgeMeaning(d: int)
    requires d >= 0
    ensures ReadsBackAs(FormatAge(d), d)
  {
    FormatAgeParts(d);
    ReadBackCount(d, AgeUnit(AgeLetter(d)), AgeLetter(d));
  }

  /** The documented examples, and a negative age (clock skew) that stays in
      the seconds tier and truncates toward zero. */
  lemma FormatAgeExamples()
    ensures FormatAge(45 * Second) == "45s"
    ensures FormatAge(90 * Second) == "1m"
    ensures FormatAge(3700 * Second) == "1h"
    ensures FormatAge(90000 * Second) == "1d"
    ensures FormatAge(-1500 * Second / 1000) == "-1s"
  {
    assert GoDiv(45 * Second, Second) == 45;
    assert NatToDecimal(45) == NatToDecimal(4) + [DigitChar(5)];
    assert (90 * Second) / Minute == 1;
    assert (3700 * Second) / Hour == 1;
    assert (90000 * Second) / Day == 1;
    assert GoDiv(-1500 * Second / 1000, Second) == -1;
  }

  /** The name cell, with a "namespace/" prefix when configured. */
  function NameCell(cfg: UiConfig, r: Resource): string
  {
    if cfg.showNamespace && r.namespace != "" then r.namespace + "/" + r.name else r.name
  }

  /** createTableRow: Name, Ready, Status, Age, Message and one cell that
      depends on the kind (none for an unknown kind). */
  function CreateTableRow(cfg: UiConfig, kind: ResourceType, r: Resource): Row
  {
    var name := NameCell(cfg, r);
    var ready := if r.ready then "True" else "False";
    var status := StatusCell(r.status, r.suspended);
    var age := FormatAge(r.age);
    var message := MessageCell(r.message);
    if kind == GitRepositoryKind || kind == HelmRepositoryKind then
      [name, ready, status, age, message, r.url]
    else if kind == KustomizationKind then
      [name, ready, status, age, message, if r.path != "" then r.source + "/" + r.path else r.source]
    else if kind == HelmReleaseKind then
      [name, ready, status, age, message, if r.version != "" then r.chart + ":" + r.version else r.chart]
    else
      [name, ready, status, age, message]
  }

  // ---------------------------------------------------------------------------
  // Columns
  // ---------------------------------------------------------------------------

  function BaseColumns(cfg: UiConfig): seq<Column>
  {
    [Column("Name", cfg.columnsName), Column("Ready", 8), Column("Status", cfg.columnsStatus),
     Column("Age", 10), Column("Message", 35)]
  }

  function KindColumns(kind: ResourceType): seq<Column>
  {
    if kind == GitRepositoryKind || kind == HelmRepositoryKind then [Column("URL", 40)]
    else if kind == KustomizationKind then [Column("Source/Path", 30)]
    else if kind == HelmReleaseKind then [Column("Chart", 25)]
    else []
  }

  /** The columns updateTableColumns installs, whatever the view's width. */
  function ColumnLayout(cfg: UiConfig, kind: ResourceType): seq<Column>
  {
    BaseColumns(cfg) + KindColumns(kind)
  }

  /** The columns of a new view (its Message column is 40 wide). */
  function InitialColumns(cfg: UiConfig): seq<Column>
  {
    [Column("Name", cfg.columnsName), Column("Ready", 8), Column("Status", cfg.columnsStatus),
     Column("Age", 10), Column("Message", 40)]
  }

  function IsFlexTitle(title: string): bool
  {
    title == "Message" || title == "URL" || title == "Source/Path"
  }

  /** Every row has one cell per column, and the cells say what the columns
      name: 6 cells for the four kinds, 5 otherwise. */
  lemma RowMatchesColumns(cfg: UiConfig, kind: ResourceType, r: Resource)
    ensures var row := CreateTableRow(cfg, kind, r);
      var cols := ColumnLayout(cfg, kind);
      |row| == |cols| && |row| == (if IsFluxKind(kind) then 6 else 5) &&
      cols[0].title == "Name" && cols[1].title == "Ready" && cols[2].title == "Status" &&
      cols[3].title == "Age" && cols[4] == Column("Message", 35) &&
      (row[1] == "True" <==> r.ready) && (row[1] == "True" || row[1] == "False") &&
      row[2] == StatusCell(r.status, r.suspended) && row[3] == FormatAge(r.age) &&
      row[4] == MessageCell(r.message) &&
      row[0] == (if cfg.showNamespace && r.namespace != "" then r.namespace + "/" + r.name else r.name) &&
      (row[0] != r.name <==> cfg.showNamespace && r.namespace != "") &&
      ((kind == GitRepositoryKind || kind == HelmRepositoryKind) ==>
        cols[5] == Column("URL", 40) && row[5] == r.url) &&
      (kind == KustomizationKind ==>
        cols[5] == Column("Source/Path", 30) &&
        (row[5] == r.source <==> r.path == "") &&
        (r.path != "" ==> row[5] == r.source + "/" + r.path)) &&
      (kind == HelmReleaseKind ==>
        cols[5] == Column("Chart", 25) &&
        (row[5] == r.chart <==> r.version == "") &&
        (r.version != "" ==> row[5] == r.chart + ":" + r.version))
  {
    var row := CreateTableRow(cfg, kind, r);
    assert |r.namespace + "/" + r.name| > |r.name|;
    if kind == KustomizationKind && r.path != "" {
      assert |row[5]| > |r.source|;
    }
    if kind == HelmReleaseKind && r.version != "" {
      assert |row[5]| > |r.chart|;
    }
  }

  /** The rows of a resource list: row i formats resource i. */
  ghost function RowsFor(cfg: UiConfig, kind: ResourceType, rs: seq<Resource>): seq<Row>
  {
    seq(|rs|, i requires 0 <= i < |rs| => CreateTableRow(cfg, kind, rs[i]))
  }

  lemma RowsForSnoc(cfg: UiConfig, kind: ResourceType, rs: seq<Resource>, i: int)
    requires 0 <= i < |rs|
    ensures RowsFor(cfg, kind, rs[..i + 1]) == RowsFor(cfg, kind, rs[..i]) + [CreateTableRow(cfg, kind, rs[i])]
  {
    var a := RowsFor(cfg, kind, rs[..i + 1]);
    var b := RowsFor(cfg, kind, rs[..i]) + [CreateTableRow(cfg, kind, rs[i])];
    assert |a| == |b|;
    forall k | 0 <= k < |a| ensures a[k] == b[k] {
      assert rs[..i + 1][k] == rs[k];
    }
  }

  /** What View shows. */
  datatype Screen = Placeholder(text: string) | TableScreen(table: Table)

  // ---------------------------------------------------------------------------
  // The view
  // ---------------------------------------------------------------------------

  class ResourceView {
    const config: UiConfig
    var table: Table
    var resources: seq<Resource>
    var resourceType: ResourceType
    var width: int
    var height: int

    /** The widget shows one formatted row per resource, and its cursor has
        never been clamped below -1. */
    ghost predicate Valid()
      reads this
    {
      table.rows == RowsFor(config, resourceType, resources) && table.cursor >= -1
    }

    /** NewResourceView: an empty GitRepository view, table height 10. */
    constructor (cfg: UiConfig)
      ensures Valid()
      ensures config == cfg && resources == [] && resourceType == GitRepositoryKind
      ensures table == Table(InitialColumns(cfg), [], 0, 10)
      ensures width == 0 && height == 0
    {
      config := cfg;
      table := Table(InitialColumns(cfg), [], 0, 10);
      resources := [];
      resourceType := GitRepositoryKind;
      width, height := 0, 0;
    }

    /** Update: key dispatch. Only the widget's cursor can change; jumps are
        guarded by a non-empty resource list. */
    method Update(msg: Msg) returns (cmd: Cmd)
      requires Valid()
      modifies this
      ensures Valid()
      ensures resources == old(resources) && resourceType == old(resourceType)
      ensures width == old(width) && height == old(height)
      ensures table.rows == old(table.rows) && table.columns == old(table.columns)
      ensures table.height == old(table.height)
      ensures match KeyAction(msg)
        case Forward(k) => table == old(table).HandleKey(k) && cmd == WidgetCmd(k)
        case ToTop => cmd == NoCmd && table == (if |resources| > 0 then old(table).GotoTop() else old(table))
        case ToBottom => cmd == NoCmd && table == (if |resources| > 0 then old(table).GotoBottom() else old(table))
        case ToMiddle => cmd == NoCmd && table == StepDown(old(table), |resources| / 2)
        case NoAction => cmd == NoCmd && table == old(table)
      ensures KeyAction(msg).ToTop? && |resources| > 0 ==> table.cursor == 0
      ensures KeyAction(msg).ToBottom? && |resources| > 0 ==> table.cursor == |resources| - 1
      ensures KeyAction(msg).ToMiddle? && |resources| > 1 ==>
        table.cursor == Min(old(table.cursor) + |resources| / 2, |resources| - 1)
    {
      cmd := NoCmd;
      match msg {
        case OtherMsg =>
        case KeyMsg(key) =>
          match key {
            case Down =>
              table, cmd := table.HandleKey(key), WidgetCmd(key);
            case Up =>
              table, cmd := table.HandleKey(key), WidgetCmd(key);
            case Left =>
              table, cmd := table.HandleKey(key), WidgetCmd(key);
            case Right =>
              table, cmd := table.HandleKey(key), WidgetCmd(key);
            case PgDown =>
              table, cmd := table.HandleKey(key), WidgetCmd(key);
            case PgUp =>
              table, cmd := table.HandleKey(key), WidgetCmd(key);
            case Home =>
              if |resources| > 0 {
                table := table.GotoTop();
              }
            case End =>
              if |resources| > 0 {
                table := table.GotoBottom();
              }
            case Enter =>
              return NoCmd;
            case Space =>
              return NoCmd;
            case Named(s) =>
              if s == "j" {
                table, cmd := table.HandleKey(Down), WidgetCmd(Down);
              } else if s == "k" {
                table, cmd := table.HandleKey(Up), WidgetCmd(Up);
              } else if s == "ctrl+d" {
                table, cmd := table.HandleKey(PgDown), WidgetCmd(PgDown);
              } else if s == "ctrl+u" {
                table, cmd := table.HandleKey(PgUp), WidgetCmd(PgUp);
              } else if s == "g" || s == "H" {
                if |resources| > 0 {
                  table := table.GotoTop();
                }
              } else if s == "G" || s == "L" {
                if |resources| > 0 {
                  table := table.GotoBottom();
                }
              } else if s == "M" {
                if |resources| > 0 {
                  var middle := |resources| / 2;
                  var t := table;
                  var i := 0;
                  while i < middle
                    invariant 0 <= i <= middle
                    invariant t == StepDown(old(table), i)
                  {
                    t := t.HandleKey(Down);
                    i := i + 1;
                  }
                  table := t;
                  StepDownFrame(old(table), middle);
                }
                if |resources| > 1 {
                  StepDownCursor(old(table), |resources| / 2);
                }
              }
          }
      }
    }

    /** View: the placeholder naming the kind exactly when there is nothing
        to show. */
    function View(): (screen: Screen)
      reads this
      ensures screen.Placeholder? <==> |resources| == 0
      ensures screen.Placeholder? ==> screen.text == "No " + resourceType + " resources found"
      ensures screen.TableScreen? ==> screen.table == table
    {
      if |resources| == 0 then Placeholder("No " + resourceType + " resources found")
      else TableScreen(table)
    }

    method SetResources(rs: seq<Resource>)
      requires Valid()
      modifies this
      ensures Valid()
      ensures resources == rs && resourceType == old(resourceType)
      ensures width == old(width) && height == old(height)
      ensures table == old(table).(columns := ColumnLayout(config, resourceType),
                                   rows := RowsFor(config, resourceType, rs))
    {
      resources := rs;
      UpdateTableColumns();
      UpdateTable();
    }

    method SetResourceType(kind: ResourceType)
      requires Valid()
      modifies this
      ensures Valid()
      ensures resourceType == kind && resources == old(resources)
      ensures width == old(width) && height == old(height)
      ensures table == old(table).(columns := ColumnLayout(config, kind),
                                   rows := RowsFor(config, kind, resources))
    {
      resourceType := kind;
      UpdateTableColumns();
      UpdateTable();
    }

    /** SetSize: new dimensions, widget height minus two for the borders,
        columns rebuilt; resources and rows untouched. */
    method SetSize(w: int, h: int)
      requires Valid()
      modifies this
      ensures Valid()
      ensures width == w && height == h
      ensures resources == old(resources) && resourceType == old(resourceType)
      ensures table == old(table).(height := h - 2, columns := ColumnLayout(config, resourceType))
    {
      width := w;
      height := h;
      table := table.(height := h - 2);
      UpdateTableColumns();
    }

    /** updateTable: one formatted row per resource, in order. */
    method UpdateTable()
      modifies this`table
      ensures table == old(table).(rows := RowsFor(config, resourceType, resources))
    {
      var rows: seq<Row> := [];
      var i := 0;
      while i < |resources|
        invariant 0 <= i <= |resources|
        invariant rows == RowsFor(config, resourceType, resources[..i])
        invariant table == old(table)
      {
        var row := CreateTableRow(config, resourceType, resources[i]);
        RowsForSnoc(config, resourceType, resources, i);
        rows := rows + [row];
        i := i + 1;
      }
      assert resources[..i] == resources;
      table := table.(rows := rows);
    }

    /** updateTableColumns. The flexible-width pass assigns the new width to
        a copy of each column, so the widths installed never depend on the
        view's width. */
    method UpdateTableColumns()
      modifies this`table
      ensures table == old(table).(columns := ColumnLayout(config, resourceType))
    {
      var baseColumns := BaseColumns(config);
      if resourceType == GitRepositoryKind {
        baseColumns := baseColumns + [Column("URL", 40)];
      } else if resourceType == HelmRepositoryKind {
        baseColumns := baseColumns + [Column("URL", 40)];
      } else if resourceType == KustomizationKind {
        baseColumns := baseColumns + [Column("Source/Path", 30)];
      } else if resourceType == HelmReleaseKind {
        baseColumns := baseColumns + [Column("Chart", 25)];
      }

      if width > 0 {
        var totalFixedWidth := 0;
        var flexColumns := 0;
        var i := 0;
        while i < |baseColumns|
          invariant 0 <= i <= |baseColumns|
          invariant flexColumns >= 0
          invariant baseColumns == ColumnLayout(config, resourceType)
        {
          var col := baseColumns[i];
          if IsFlexTitle(col.title) {
            flexColumns := flexColumns + 1;
          } else {
            totalFixedWidth := totalFixedWidth + col.width;
          }
          i := i + 1;
        }
        if flexColumns > 0 {
          var availableWidth := width - totalFixedWidth - 10;
          var flexWidth := GoDiv(availableWidth, flexColumns);
          if flexWidth > 20 {
            var j := 0;
            while j < |baseColumns|
              invariant 0 <= j <= |baseColumns|
              invariant baseColumns == ColumnLayout(config, resourceType)
            {
              var col := baseColumns[j];
              if IsFlexTitle(col.title) {
                col := col.(width := flexWidth);
              }
              j := j + 1;
            }
          }
        }
      }

      table := table.(columns := baseColumns);
    }

    /** GetSelectedResource: the resource under the cursor, if the cursor is
        inside the list. */
    function GetSelectedResource(): (selected: Option<Resource>)
      reads this
      ensures selected.Some? <==> 0 <= table.cursor < |resources|
      ensures selected.Some? ==> selected.value == resources[table.cursor]
    {
      var cursor := table.cursor;
      if cursor >= 0 && cursor < |resources| then Some(resources[cursor]) else None
    }
  }
}
