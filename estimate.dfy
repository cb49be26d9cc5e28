/**
 * Feature assembly and the estimation entry point (main/app/utils/estimate.py):
 * the selected-feature mask, the 32-column metadata row that get_metadata
 * builds (writing three keys into the caller's project on the way), the
 * classifier input row of get_input, and get_estimation, which scores the
 * project, places the score in the historical distribution and merges in the
 * suggestions.
 */
module Estimate {
  import opened Wrappers
  import opened SeqUtil
  import Preprocessor
  import Thresholder
  import Suggest

  // ---------------------------------------------------------------------
  // Selected-feature mask (lines 43-50 and 85-90)
  // ---------------------------------------------------------------------

  /** Membership in a Python list, as a predicate on names. */
  function InList(selected: seq<string>): string -> bool {
    n => n in selected
  }

  /** `np.isin(names, selected)`: for every feature name, whether it is selected. */
  function IsinMask(names: seq<string>, selected: seq<string>): (m: seq<bool>)
    ensures |m| == |names|
    ensures forall i :: 0 <= i < |names| ==> (m[i] <==> names[i] in selected)
  {
    seq(|names|, i requires 0 <= i < |names| => names[i] in selected)
  }

  /** numpy's boolean-mask indexing `xs[mask]`: the entries at the true positions, in order. */
  function Select<T>(xs: seq<T>, mask: seq<bool>): (r: seq<T>)
    requires |xs| == |mask|
    ensures |r| == CountWhere(mask, Suggest.IsTrue)
  {
    if xs == [] then [] else (if mask[0] then [xs[0]] else []) + Select(xs[1..], mask[1..])
  }

  /** Two sequences of the same length, paired position by position. */
  function Zip<A, B>(a: seq<A>, b: seq<B>): (r: seq<(A, B)>)
    requires |a| == |b|
    ensures |r| == |a|
    ensures forall i :: 0 <= i < |a| ==> r[i] == (a[i], b[i])
  {
    if a == [] then [] else [(a[0], b[0])] + Zip(a[1..], b[1..])
  }

  /** A (feature name, value) pair whose name is selected. */
  function PairSelected(selected: seq<string>): ((string, real)) -> bool {
    (pair: (string, real)) => pair.0 in selected
  }

  /** Masking the names with their own `isin` mask is filtering them by membership. */
  lemma {:induction false} SelectIsFilter(names: seq<string>, selected: seq<string>)
    ensures Select(names, IsinMask(names, selected)) == Filter(names, InList(selected))
  {
    if names != [] {
      assert IsinMask(names, selected)[1..] == IsinMask(names[1..], selected);
      SelectIsFilter(names[1..], selected);
    }
  }

  /**
   * `features[c]` (lines 47-50): the vectorizer's feature names that occur
   * in the selected-token list, in vocabulary order.
   */
  function SelectedFeatures(names: seq<string>, selected: seq<string>): (r: seq<string>)
    ensures r == Filter(names, InList(selected))
    ensures forall n :: n in r ==> n in names && n in selected
  {
    SelectIsFilter(names, selected);
    Select(names, IsinMask(names, selected))
  }

  /** The errors the modelled pipeline raises. */
  datatype EstimateError =
    | MaskLengthMismatch                            // numpy IndexError: boolean mask of the wrong length
    | ShapeMismatch                                 // pandas ValueError: row width differs from the column count
    | ClassifierFailed(error: Thresholder.PyError)
    | SuggestFailed(reason: Suggest.SuggestError)

  /**
   * `input_vector[c]` (lines 85-90): the columns of the vectorized text
   * whose feature names are selected; a vector whose width is not the
   * number of feature names cannot be masked.
   */
  function InputVector(v: seq<real>, names: seq<string>, selected: seq<string>): (r: Result<seq<real>, EstimateError>)
    ensures r.Ok? <==> |v| == |names|
    ensures r.Err? ==> r.error == MaskLengthMismatch
    ensures r.Ok? ==> |r.value| == |SelectedFeatures(names, selected)|
  {
    if |v| != |names| then Err(MaskLengthMismatch) else Ok(Select(v, IsinMask(names, selected)))
  }

  /**
   * The same mask selects the feature names and the vector's columns: the
   * (name, value) pairs that survive are exactly the pairs whose name is
   * selected, in their original order.
   */
  lemma {:induction false} MaskKeepsPairs(v: seq<real>, names: seq<string>, selected: seq<string>)
    requires |v| == |names|
    ensures Zip(SelectedFeatures(names, selected), InputVector(v, names, selected).value) ==
      Filter(Zip(names, v), PairSelected(selected))
  {
    MaskPairs(v, names, selected);
    SelectIsFilter(names, selected);
  }

  lemma {:induction false} MaskPairs(v: seq<real>, names: seq<string>, selected: seq<string>)
    requires |v| == |names|
    ensures |Select(names, IsinMask(names, selected))| == |Select(v, IsinMask(names, selected))|
    ensures Zip(Select(names, IsinMask(names, selected)), Select(v, IsinMask(names, selected))) ==
      Filter(Zip(names, v), PairSelected(selected))
  {
    if names != [] {
      var m := IsinMask(names, selected);
      assert m[1..] == IsinMask(names[1..], selected);
      assert Zip(names, v)[1..] == Zip(names[1..], v[1..]);
      MaskPairs(v[1..], names[1..], selected);
      var restNames := Select(names[1..], m[1..]);
      var restValues := Select(v[1..], m[1..]);
      if m[0] {
        assert Select(names, m) == [names[0]] + restNames;
        assert Select(v, m) == [v[0]] + restValues;
        assert Zip([names[0]] + restNames, [v[0]] + restValues) == [(names[0], v[0])] + Zip(restNames, restValues);
      } else {
        assert Select(names, m) == restNames;
        assert Select(v, m) == restValues;
      }
    }
  }

  // ---------------------------------------------------------------------
  // Metadata row (get_metadata, lines 94-133)
  // ---------------------------------------------------------------------

  /**
   * The submitted project as get_metadata and get_suggestion read it. The
   * social links are booleans; the timestamps are counted in nanoseconds, the
   * unit pandas stores them in.
   */
  datatype Project = Project(
    title: string, description: string, content: string,
    facebook: bool, instagram: bool, youtube: bool, website: bool,
    setCount: int, startTime: int, endTime: int,
    projectType: string, domain: string,
    goal: int, maxSetPrices: int, minSetPrices: int)

  const NanosPerDay: int := 86_400_000_000_000

  /** `(end_time - start_time).dt.days`: the whole days in the difference, rounded down (also when it is negative). */
  function WholeDays(start: int, end: int): (d: int)
    ensures d * NanosPerDay <= end - start < (d + 1) * NanosPerDay
  {
    (end - start) / NanosPerDay
  }

  /**
   * A column of the metadata frame. The source names the one-hot columns
   * "type_" or "domain_" followed by the value; those prefixes keep them apart
   * from each other and from the fixed names, so distinct columns here are
   * distinct names there.
   */
  datatype MetaName =
    | Facebook | Instagram | Youtube | Website | SetCount | StartTime | EndTime
    | DurationDays | DescriptionLength | ContentLength | TitleLength
    | TypeIs(projectType: string) | DomainIs(domain: string)
    | LogGoal | LogMaxSetPrices | LogMinSetPrices
  {
    /** The column's name in the frame. */
    function Name(): string {
      match this
      case Facebook => "facebook"
      case Instagram => "instagram"
      case Youtube => "youtube"
      case Website => "website"
      case SetCount => "set_count"
      case StartTime => "start_time"
      case EndTime => "end_time"
      case DurationDays => "duration_days"
      case DescriptionLength => "description_length"
      case ContentLength => "content_length"
      case TitleLength => "title_length"
      case TypeIs(t) => "type_" + t
      case DomainIs(d) => "domain_" + d
      case LogGoal => "log_goal"
      case LogMaxSetPrices => "log_max_set_prices"
      case LogMinSetPrices => "log_min_set_prices"
    }
  }

  /** The three project types and seventeen domains the classifier was trained on. */
  const TypeNames: seq<string> := ["群眾集資", "訂閱式專案", "預購式專案"]
  const DomainNames: seq<string> := [
    "出版", "地方創生", "挺好店", "插畫漫畫", "攝影", "教育", "時尚", "社會", "科技",
    "空間", "藝術", "表演", "設計", "遊戲", "電影動畫", "音樂", "飲食"]

  /** The columns before the one-hot block, in row order. */
  const LeadingColumns: seq<MetaName> := [
    Facebook, Instagram, Youtube, Website, SetCount, DurationDays, DescriptionLength, ContentLength, TitleLength]

  function TypeColumns(): (cs: seq<MetaName>)
    ensures |cs| == 3
  {
    seq(|TypeNames|, k requires 0 <= k < |TypeNames| => TypeIs(TypeNames[k]))
  }

  function DomainColumns(): (cs: seq<MetaName>)
    ensures |cs| == 17
  {
    seq(|DomainNames|, k requires 0 <= k < |DomainNames| => DomainIs(DomainNames[k]))
  }

  /** `cate`: the one-hot columns, all set to 0 before the project's own two are set to 1. */
  function CateColumns(): seq<MetaName> {
    TypeColumns() + DomainColumns()
  }

  const LogColumns: seq<MetaName> := [LogGoal, LogMaxSetPrices, LogMinSetPrices]

  /** The 32 columns of the metadata row, in the order the classifier was trained on. */
  function RowColumns(): (cs: seq<MetaName>)
    ensures |cs| == 32
  {
    LeadingColumns + CateColumns() + LogColumns
  }

  /** A boolean or a match as a float column: 1 or 0. */
  function Indicator(b: bool): real {
    if b then 1.0 else 0.0
  }

  /** `np.log(x) if x else 1`: the guard is Python truthiness, so only 0 is replaced. */
  function GuardedLog(ln: real -> real, x: int): real {
    if x != 0 then ln(x as real) else 1.0
  }

  /** `np.log(x + 1)`, defined for every count including 0. */
  function LogPlusOne(ln: real -> real, x: int): real {
    ln((x + 1) as real)
  }

  /**
   * The value get_metadata gives column `c`, column by column as the source
   * defines them: a one-hot column is 1 exactly when it names the project's
   * own type or domain.
   */
  function ColumnValue(p: Project, ln: real -> real, c: MetaName): real {
    match c
    case Facebook => Indicator(p.facebook)
    case Instagram => Indicator(p.instagram)
    case Youtube => Indicator(p.youtube)
    case Website => Indicator(p.website)
    case SetCount => p.setCount as real
    case StartTime => p.startTime as real
    case EndTime => p.endTime as real
    case DurationDays => WholeDays(p.startTime, p.endTime) as real
    case DescriptionLength => |p.description| as real
    case ContentLength => |p.content| as real
    case TitleLength => |p.title| as real
    case TypeIs(t) => Indicator(t == p.projectType)
    case DomainIs(d) => Indicator(d == p.domain)
    case LogGoal => GuardedLog(ln, p.goal)
    case LogMaxSetPrices => GuardedLog(ln, p.maxSetPrices)
    case LogMinSetPrices => LogPlusOne(ln, p.minSetPrices)
  }

  /** The metadata row: the value of every column of `RowColumns`, in that order. */
  function MetadataRow(p: Project, ln: real -> real): (row: seq<real>)
    ensures |row| == |RowColumns()| == 32
  {
    seq(|RowColumns()|, i requires 0 <= i < |RowColumns()| => ColumnValue(p, ln, RowColumns()[i]))
  }

  /** The names of a sequence of columns. */
  function Names(cs: seq<MetaName>): (r: seq<string>)
    ensures |r| == |cs| && forall i :: 0 <= i < |cs| ==> r[i] == cs[i].Name()
  {
    seq(|cs|, i requires 0 <= i < |cs| => cs[i].Name())
  }

  /** The keys get_metadata writes into the caller's project and the values they get. */
  function Written(before: map<string, int>, p: Project): (after: map<string, int>)
    ensures after.Keys == before.Keys + {"duration_days", "description_length", "content_length"}
    ensures after["duration_days"] == WholeDays(p.startTime, p.endTime)
    ensures after["description_length"] == |p.description| && after["content_length"] == |p.content|
    ensures forall k :: k in before && k !in {"duration_days", "description_length", "content_length"} ==> after[k] == before[k]
  {
    before["duration_days" := WholeDays(p.startTime, p.endTime)]
      ["description_length" := |p.description|]["content_length" := |p.content|]
  }

  /**
   * The caller's project dictionary: the submitted keys, which the model
   * never changes, and the integer keys written into it afterwards.
   */
  class ProjectDict {
    const submitted: Project
    var written: map<string, int>

    constructor (p: Project)
      ensures submitted == p && written == map[]
    {
      submitted := p;
      written := map[];
    }
  }

  /** The frame after the copied columns, the duration and the three lengths (lines 96-104). */
  predicate HasBaseColumns(frame: map<MetaName, real>, p: Project) {
    && Facebook in frame && frame[Facebook] == Indicator(p.facebook)
    && Instagram in frame && frame[Instagram] == Indicator(p.instagram)
    && Youtube in frame && frame[Youtube] == Indicator(p.youtube)
    && Website in frame && frame[Website] == Indicator(p.website)
    && SetCount in frame && frame[SetCount] == p.setCount as real
    && DurationDays in frame && frame[DurationDays] == WholeDays(p.startTime, p.endTime) as real
    && DescriptionLength in frame && frame[DescriptionLength] == |p.description| as real
    && ContentLength in frame && frame[ContentLength] == |p.content| as real
    && TitleLength in frame && frame[TitleLength] == |p.title| as real
  }

  /** The one-hot block: 1 exactly in the project's own type and domain columns. */
  predicate HasOneHotColumns(frame: map<MetaName, real>, p: Project) {
    forall c :: c in CateColumns() ==>
      c in frame && frame[c] == Indicator(c == TypeIs(p.projectType) || c == DomainIs(p.domain))
  }

  /** The frame after the one-hot block and the log columns (lines 106-118). */
  predicate HasAllColumns(frame: map<MetaName, real>, p: Project, ln: real -> real) {
    && HasBaseColumns(frame, p)
    && HasOneHotColumns(frame, p)
    && LogGoal in frame && frame[LogGoal] == GuardedLog(ln, p.goal)
    && LogMaxSetPrices in frame && frame[LogMaxSetPrices] == GuardedLog(ln, p.maxSetPrices)
    && LogMinSetPrices in frame && frame[LogMinSetPrices] == LogPlusOne(ln, p.minSetPrices)
  }

  /** A frame holding every column's value holds the right value in each column of `cs`. */
  ghost predicate FrameAgrees(frame: map<MetaName, real>, p: Project, ln: real -> real, cs: seq<MetaName>) {
    forall c :: c in cs ==> c in frame && frame[c] == ColumnValue(p, ln, c)
  }

  lemma LeadingFromFrame(p: Project, ln: real -> real, frame: map<MetaName, real>)
    requires HasBaseColumns(frame, p)
    ensures FrameAgrees(frame, p, ln, LeadingColumns)
  {
  }

  lemma CodedFromFrame(p: Project, ln: real -> real, frame: map<MetaName, real>)
    requires HasOneHotColumns(frame, p)
    ensures FrameAgrees(frame, p, ln, CateColumns())
  {
    CateColumnsAreCoded();
  }

  lemma LogFromFrame(p: Project, ln: real -> real, frame: map<MetaName, real>)
    requires HasAllColumns(frame, p, ln)
    ensures FrameAgrees(frame, p, ln, LogColumns)
  {
  }

  /** A frame holding every column's value gives the metadata row. */
  lemma RowFromFrame(p: Project, ln: real -> real, frame: map<MetaName, real>)
    requires HasAllColumns(frame, p, ln)
    ensures forall i :: 0 <= i < |RowColumns()| ==>
      RowColumns()[i] in frame && frame[RowColumns()[i]] == ColumnValue(p, ln, RowColumns()[i])
  {
    LeadingFromFrame(p, ln, frame);
    CodedFromFrame(p, ln, frame);
    LogFromFrame(p, ln, frame);
    forall i | 0 <= i < |RowColumns()|
      ensures RowColumns()[i] in frame && frame[RowColumns()[i]] == ColumnValue(p, ln, RowColumns()[i])
    {
      var c := RowColumns()[i];
      assert c in LeadingColumns + CateColumns() + LogColumns;
    }
  }

  /**
   * Lines 96-104: the copied columns and the duration, description, content
   * and title lengths; the duration and the two text lengths (not the title
   * length) are also written into the caller's project.
   */
  method BaseColumns(project: ProjectDict) returns (frame: map<MetaName, real>)
    modifies project
    ensures project.written == Written(old(project.written), project.submitted)
    ensures HasBaseColumns(frame, project.submitted)
  {
    var p := project.submitted;
    frame := map[
      Facebook := Indicator(p.facebook), Instagram := Indicator(p.instagram),
      Youtube := Indicator(p.youtube), Website := Indicator(p.website),
      SetCount := p.setCount as real,
      StartTime := p.startTime as real, EndTime := p.endTime as real];
    var days := WholeDays(p.startTime, p.endTime);
    frame := frame[DurationDays := days as real];
    project.written := project.written["duration_days" := days];
    frame := frame[DescriptionLength := |p.description| as real];
    project.written := project.written["description_length" := |p.description|];
    frame := frame[ContentLength := |p.content| as real];
    project.written := project.written["content_length" := |p.content|];
    frame := frame[TitleLength := |p.title| as real];
  }

  /** Every one-hot column is a type or a domain column. */
  lemma CateColumnsAreCoded()
    ensures forall c :: c in CateColumns() ==> c.TypeIs? || c.DomainIs?
  {
  }

  /** Changing only one-hot columns keeps the base columns. */
  lemma BaseColumnsKept(frame: map<MetaName, real>, out: map<MetaName, real>, p: Project)
    requires HasBaseColumns(frame, p)
    requires forall c: MetaName :: !c.TypeIs? && !c.DomainIs? && c in frame ==> c in out && out[c] == frame[c]
    ensures HasBaseColumns(out, p)
  {
  }

  /**
   * Lines 111-113: every one-hot column set to 0, then the project's own type
   * and domain columns set to 1 (an unlisted value adds a column that the
   * final selection drops).
   */
  method OneHotColumns(frame: map<MetaName, real>, p: Project) returns (out: map<MetaName, real>)
    requires HasBaseColumns(frame, p)
    ensures HasBaseColumns(out, p) && HasOneHotColumns(out, p)
    ensures StartTime in frame ==> StartTime in out
    ensures EndTime in frame ==> EndTime in out
  {
    CateColumnsAreCoded();
    out := frame + map c | c in CateColumns() :: 0.0;
    out := out[TypeIs(p.projectType) := 1.0];
    out := out[DomainIs(p.domain) := 1.0];
    BaseColumnsKept(frame, out, p);
    forall c | c in CateColumns()
      ensures c in out && out[c] == Indicator(c == TypeIs(p.projectType) || c == DomainIs(p.domain))
    {
      assert c.TypeIs? || c.DomainIs?;
    }
  }

  /** Lines 115-122: the three log columns, and the two timestamps dropped. */
  method LogColumnsAdded(frame: map<MetaName, real>, p: Project, ln: real -> real) returns (out: map<MetaName, real>)
    requires HasBaseColumns(frame, p) && HasOneHotColumns(frame, p)
    ensures HasAllColumns(out, p, ln)
    ensures StartTime !in out && EndTime !in out
  {
    out := frame[LogGoal := GuardedLog(ln, p.goal)];
    out := out[LogMaxSetPrices := GuardedLog(ln, p.maxSetPrices)];
    out := out[LogMinSetPrices := LogPlusOne(ln, p.minSetPrices)];
    out := out - {StartTime, EndTime};
    forall c | c in CateColumns()
      ensures c in out && out[c] == frame[c]
    {
      assert c.TypeIs? || c.DomainIs?;
    }
  }

  /**
   * get_metadata: builds the one-row frame column by column, writes
   * `duration_days`, `description_length` and `content_length` (but not
   * `title_length`) into the caller's project, drops the two timestamps and
   * returns the row in the fixed 32-column order with the column names.
   */
  method GetMetadata(project: ProjectDict, ln: real -> real) returns (row: seq<real>, names: seq<string>)
    modifies project
    ensures project.written == Written(old(project.written), project.submitted)
    ensures row == MetadataRow(project.submitted, ln) && names == Names(RowColumns())
  {
    var frame := BaseColumns(project);
    frame := OneHotColumns(frame, project.submitted);
    frame := LogColumnsAdded(frame, project.submitted, ln);
    RowFromFrame(project.submitted, ln, frame);
    row := seq(|RowColumns()|, i requires 0 <= i < |RowColumns()| => frame[RowColumns()[i]]);
    names := Names(RowColumns());
  }

  // ---------------------------------------------------------------------
  // Properties of the metadata row
  // ---------------------------------------------------------------------

  /** The nine leading columns: the links, the set count, the whole-day duration and the three lengths. */
  lemma LeadingValues(p: Project, ln: real -> real)
    ensures var row := MetadataRow(p, ln);
      && row[0] == Indicator(p.facebook) && row[1] == Indicator(p.instagram)
      && row[2] == Indicator(p.youtube) && row[3] == Indicator(p.website)
      && row[4] == p.setCount as real
      && row[5] == WholeDays(p.startTime, p.endTime) as real
      && row[6] == |p.description| as real && row[7] == |p.content| as real && row[8] == |p.title| as real
  {
    var cs := RowColumns();
    assert cs[0] == Facebook && cs[1] == Instagram && cs[2] == Youtube && cs[3] == Website;
    assert cs[4] == SetCount && cs[5] == DurationDays && cs[6] == DescriptionLength;
    assert cs[7] == ContentLength && cs[8] == TitleLength;
  }

  /** Neither timestamp is a column of the row: both are dropped after the duration is computed. */
  lemma TimestampsDropped()
    ensures StartTime !in RowColumns() && EndTime !in RowColumns()
  {
    CateColumnsAreCoded();
    assert RowColumns() == LeadingColumns + CateColumns() + LogColumns;
  }

  /** The log columns: 1 for a zero goal or maximum price, the logarithm otherwise; always ln(min + 1). */
  lemma LogValues(p: Project, ln: real -> real)
    ensures var row := MetadataRow(p, ln);
      && row[29] == (if p.goal == 0 then 1.0 else ln(p.goal as real))
      && row[30] == (if p.maxSetPrices == 0 then 1.0 else ln(p.maxSetPrices as real))
      && row[31] == ln((p.minSetPrices + 1) as real)
  {
    var cs := RowColumns();
    assert cs[29] == LogGoal && cs[30] == LogMaxSetPrices && cs[31] == LogMinSetPrices;
  }

  /** Entry `k` and the next one are non-empty, and the next one starts with a larger character. */
  predicate IncreasesAt(names: seq<string>, k: nat)
    requires k + 1 < |names|
  {
    names[k] != [] && names[k + 1] != [] && names[k][0] < names[k + 1][0]
  }

  /** The first characters of the entries strictly increase. */
  predicate FirstCharsIncrease(names: seq<string>) {
    forall k: nat :: k + 1 < |names| ==> IncreasesAt(names, k)
  }

  /** Increasing first characters make the strings pairwise distinct. */
  lemma {:induction false} FirstCharsDistinct(names: seq<string>, j: nat, k: nat)
    requires FirstCharsIncrease(names)
    requires j < k < |names|
    ensures names[j] != [] && names[k] != [] && names[j][0] < names[k][0]
    decreases k - j
  {
    assert IncreasesAt(names, j);
    if j + 1 < k {
      FirstCharsDistinct(names, j + 1, k);
    }
  }

  lemma TypeNamesIncrease()
    ensures FirstCharsIncrease(TypeNames)
  {
    assert TypeNames[0][0] == '群' && TypeNames[1][0] == '訂' && TypeNames[2][0] == '預';
  }

  lemma DomainNamesIncrease()
    ensures FirstCharsIncrease(DomainNames)
  {
    assert DomainNames[0][0] == '出' && DomainNames[1][0] == '地' && DomainNames[2][0] == '挺';
    assert DomainNames[3][0] == '插' && DomainNames[4][0] == '攝' && DomainNames[5][0] == '教';
    assert DomainNames[6][0] == '時' && DomainNames[7][0] == '社' && DomainNames[8][0] == '科';
    assert DomainNames[9][0] == '空' && DomainNames[10][0] == '藝' && DomainNames[11][0] == '表';
    assert DomainNames[12][0] == '設' && DomainNames[13][0] == '遊' && DomainNames[14][0] == '電';
    assert DomainNames[15][0] == '音' && DomainNames[16][0] == '飲';
  }

  /**
   * A block of indicator columns over names with increasing first characters
   * holds at most one 1, and none when the value is not among the names.
   */
  lemma OneHotBlock(names: seq<string>, value: string, group: seq<real>)
    requires FirstCharsIncrease(names) && |group| == |names|
    requires forall k :: 0 <= k < |names| ==> group[k] == Indicator(names[k] == value)
    ensures forall j, k :: 0 <= j < k < |names| ==> group[j] == 0.0 || group[k] == 0.0
    ensures value !in names ==> forall k :: 0 <= k < |names| ==> group[k] == 0.0
  {
    forall j, k | 0 <= j < k < |names|
      ensures group[j] == 0.0 || group[k] == 0.0
    {
      FirstCharsDistinct(names, j, k);
    }
  }

  /**
   * The type block (columns 9-11): 1 exactly at the project's own type, so at
   * most one 1, and all zero when the type is not one of the three listed.
   */
  lemma TypeOneHot(p: Project, ln: real -> real)
    ensures var group := MetadataRow(p, ln)[9..12];
      && (forall k :: 0 <= k < |TypeNames| ==> group[k] == if TypeNames[k] == p.projectType then 1.0 else 0.0)
      && (forall j, k :: 0 <= j < k < |TypeNames| ==> group[j] == 0.0 || group[k] == 0.0)
      && (p.projectType !in TypeNames ==> forall k :: 0 <= k < |TypeNames| ==> group[k] == 0.0)
  {
    var row := MetadataRow(p, ln);
    var group := row[9..12];
    forall k | 0 <= k < |TypeNames|
      ensures group[k] == Indicator(TypeNames[k] == p.projectType)
    {
      var t := TypeNames[k];
      assert RowColumns()[9 + k] == CateColumns()[k] == TypeIs(t);
      assert group[k] == row[9 + k] == ColumnValue(p, ln, TypeIs(t));
    }
    TypeNamesIncrease();
    OneHotBlock(TypeNames, p.projectType, group);
  }

  /**
   * The domain block (columns 12-28): 1 exactly at the project's own domain,
   * so at most one 1, and all zero when the domain is not one of the
   * seventeen listed.
   */
  lemma DomainOneHot(p: Project, ln: real -> real)
    ensures var group := MetadataRow(p, ln)[12..29];
      && (forall k :: 0 <= k < |DomainNames| ==> group[k] == if DomainNames[k] == p.domain then 1.0 else 0.0)
      && (forall j, k :: 0 <= j < k < |DomainNames| ==> group[j] == 0.0 || group[k] == 0.0)
      && (p.domain !in DomainNames ==> forall k :: 0 <= k < |DomainNames| ==> group[k] == 0.0)
  {
    var row := MetadataRow(p, ln);
    var group := row[12..29];
    forall k | 0 <= k < |DomainNames|
      ensures group[k] == Indicator(DomainNames[k] == p.domain)
    {
      var d := DomainNames[k];
      assert RowColumns()[12 + k] == CateColumns()[3 + k] == DomainIs(d);
      assert group[k] == row[12 + k] == ColumnValue(p, ln, DomainIs(d));
    }
    DomainNamesIncrease();
    OneHotBlock(DomainNames, p.domain, group);
  }

  // ---------------------------------------------------------------------
  // Input row (get_input, lines 135-151)
  // ---------------------------------------------------------------------

  /** The label of a text field's columns. */
  function FieldLabel(f: Suggest.Field): string {
    match f
    case Title => "title"
    case Description => "description"
    case Content => "content"
  }

  /** `[f"{prefix}:{f}" for f in names]`. */
  function Prefixed(prefix: string, names: seq<string>): (r: seq<string>)
    ensures |r| == |names|
    ensures forall i :: 0 <= i < |names| ==> r[i] == prefix + ":" + names[i]
  {
    seq(|names|, i requires 0 <= i < |names| => prefix + ":" + names[i])
  }

  /** The three text fields' values, in the order title, description, content. */
  function Blocks<T>(x: Suggest.PerField<seq<T>>): (bs: seq<seq<T>>)
    ensures |bs| == 3
  {
    seq(|Suggest.Fields|, j requires 0 <= j < |Suggest.Fields| => x.Get(Suggest.Fields[j]))
  }

  /** The three text fields' column names, each prefixed by its field's label. */
  function NameBlocks(features: Suggest.PerField<seq<string>>): (bs: seq<seq<string>>)
    ensures |bs| == 3
  {
    seq(|Suggest.Fields|, j requires 0 <= j < |Suggest.Fields| =>
      Prefixed(FieldLabel(Suggest.Fields[j]), features.Get(Suggest.Fields[j])))
  }

  /** `x_all`: the text vectors in field order, then the metadata row. */
  function InputRow(vector: Suggest.PerField<seq<real>>, meta: seq<real>): seq<real> {
    Flatten(Blocks(vector)) + meta
  }

  /** `feature_name`: the prefixed text feature names in field order, then the prefixed metadata names. */
  function InputNames(features: Suggest.PerField<seq<string>>): seq<string> {
    Flatten(NameBlocks(features)) + Prefixed("meta", Names(RowColumns()))
  }

  /** A frame: its column names and the values of its single row. */
  datatype Frame = Frame(columns: seq<string>, values: seq<real>)

  /** `pd.DataFrame(x_all, columns=feature_name)`: a row whose width is not the number of names is refused. */
  function InputFrame(vector: Suggest.PerField<seq<real>>, features: Suggest.PerField<seq<string>>, meta: seq<real>): (r: Result<Frame, EstimateError>)
    ensures r.Err? ==> r.error == ShapeMismatch
    ensures r.Ok? ==> |r.value.columns| == |r.value.values|
  {
    var row := InputRow(vector, meta);
    var names := InputNames(features);
    if |row| != |names| then Err(ShapeMismatch) else Ok(Frame(names, row))
  }

  lemma FlattenThree<T>(a: seq<T>, b: seq<T>, c: seq<T>)
    ensures Flatten([a, b, c]) == a + b + c
  {
    assert [a, b, c][1..] == [b, c];
    assert [b, c][1..] == [c];
    assert Flatten([c]) == c + Flatten([]);
  }

  /**
   * The layout of the input row: title, description and content vectors,
   * then the metadata, with the names prefixed `title:`, `description:`,
   * `content:` and `meta:` block by block; the row has
   * |title| + |description| + |content| + 32 names.
   */
  lemma InputLayout(vector: Suggest.PerField<seq<real>>, features: Suggest.PerField<seq<string>>, meta: seq<real>)
    ensures InputRow(vector, meta) == vector.title + vector.description + vector.content + meta
    ensures InputNames(features) ==
      Prefixed("title", features.title) + Prefixed("description", features.description) +
      Prefixed("content", features.content) + Prefixed("meta", Names(RowColumns()))
    ensures |InputNames(features)| == |features.title| + |features.description| + |features.content| + 32
  {
    assert Blocks(vector) == [vector.title, vector.description, vector.content];
    FlattenThree(vector.title, vector.description, vector.content);
    assert NameBlocks(features) ==
      [Prefixed("title", features.title), Prefixed("description", features.description), Prefixed("content", features.content)];
    FlattenThree(Prefixed("title", features.title), Prefixed("description", features.description), Prefixed("content", features.content));
  }

  /** The frame is built exactly when every text vector is as wide as its field's feature list and the metadata row has 32 values. */
  lemma InputFrameBuilt(vector: Suggest.PerField<seq<real>>, features: Suggest.PerField<seq<string>>, meta: seq<real>)
    requires |meta| == 32
    ensures (forall f :: |vector.Get(f)| == |features.Get(f)|) ==> InputFrame(vector, features, meta).Ok?
    ensures InputFrame(vector, features, meta).Ok? <==>
      |vector.title| + |vector.description| + |vector.content| == |features.title| + |features.description| + |features.content|
  {
    InputLayout(vector, features, meta);
    if forall f :: |vector.Get(f)| == |features.Get(f)| {
      assert |vector.Get(Suggest.Title)| == |features.Get(Suggest.Title)|;
      assert |vector.Get(Suggest.Description)| == |features.Get(Suggest.Description)|;
      assert |vector.Get(Suggest.Content)| == |features.Get(Suggest.Content)|;
    }
  }

  /**
   * Lines 142-146: the title block, then the description and content blocks
   * appended in a loop, each with its prefixed feature names.
   */
  method TextColumns(vector: Suggest.PerField<seq<real>>, features: Suggest.PerField<seq<string>>)
    returns (xAll: seq<real>, featureName: seq<string>)
    ensures xAll == Flatten(Blocks(vector)) && featureName == Flatten(NameBlocks(features))
  {
    xAll := vector.Get(Suggest.Fields[0]);
    featureName := Prefixed(FieldLabel(Suggest.Fields[0]), features.Get(Suggest.Fields[0]));
    assert Blocks(vector)[..1] == [xAll] && NameBlocks(features)[..1] == [featureName];
    assert Flatten([xAll]) == xAll + Flatten([]);
    assert Flatten([featureName]) == featureName + Flatten([]);
    for i := 1 to |Suggest.Fields|
      invariant xAll == Flatten(Blocks(vector)[..i])
      invariant featureName == Flatten(NameBlocks(features)[..i])
    {
      var col := Suggest.Fields[i];
      FlattenAppend(Blocks(vector)[..i], [vector.Get(col)]);
      assert Blocks(vector)[..i + 1] == Blocks(vector)[..i] + [vector.Get(col)];
      assert Flatten([vector.Get(col)]) == vector.Get(col) + Flatten([]);
      xAll := xAll + vector.Get(col);
      var named := Prefixed(FieldLabel(col), features.Get(col));
      FlattenAppend(NameBlocks(features)[..i], [named]);
      assert NameBlocks(features)[..i + 1] == NameBlocks(features)[..i] + [named];
      assert Flatten([named]) == named + Flatten([]);
      featureName := featureName + named;
    }
    assert Blocks(vector)[..3] == Blocks(vector) && NameBlocks(features)[..3] == NameBlocks(features);
  }

  /**
   * get_input: the metadata row and names, the text blocks, then the
   * metadata block, and the frame of that one row.
   */
  method GetInput(project: ProjectDict, vector: Suggest.PerField<seq<real>>, features: Suggest.PerField<seq<string>>, ln: real -> real)
    returns (r: Result<Frame, EstimateError>)
    modifies project
    ensures project.written == Written(old(project.written), project.submitted)
    ensures r == InputFrame(vector, features, MetadataRow(project.submitted, ln))
  {
    var xMeta, metaFeatures := GetMetadata(project, ln);
    var xAll, featureName := TextColumns(vector, features);
    xAll := xAll + xMeta;
    featureName := featureName + Prefixed("meta", metaFeatures);
    if |xAll| != |featureName| {
      return Err(ShapeMismatch);
    }
    r := Ok(Frame(featureName, xAll));
  }

  // ---------------------------------------------------------------------
  // Estimation (get_estimation, lines 153-168)
  // ---------------------------------------------------------------------

  /** A historical score strictly below the probability. */
  function Below(prob: real): real -> bool {
    s => s < prob
  }

  // Arithmetic facts about real division, stated apart so that the solver
  // meets them outside this module's large context; no source counterpart.

  lemma FractionBounds(a: real, n: real)
    requires 0.0 <= a <= n && 0.0 < n
    ensures 0.0 <= a / n <= 1.0
  {
  }

  lemma FractionEnds(n: real)
    requires 0.0 < n
    ensures n / n == 1.0 && 0.0 / n == 0.0
  {
  }

  lemma FractionMono(a: real, b: real, n: real)
    requires a <= b && 0.0 < n
    ensures a / n <= b / n
  {
  }

  /**
   * `(dataset_scores < prob).mean()`: the fraction of historical scores
   * strictly below the probability; the mean of no scores is NaN, here None.
   */
  function GreaterThan(scores: seq<real>, prob: real): (r: Option<real>)
    ensures r.None? <==> scores == []
    ensures r.Some? ==> 0.0 <= r.value <= 1.0
  {
    if scores == [] then None
    else
      var below := CountWhere(scores, Below(prob)) as real;
      FractionBounds(below, |scores| as real);
      Some(below / |scores| as real)
  }

  /** A larger probability is above at least as large a fraction of the scores. */
  lemma GreaterThanMono(scores: seq<real>, p: real, q: real)
    requires scores != [] && p <= q
    ensures GreaterThan(scores, p).value <= GreaterThan(scores, q).value
  {
    CountWhereMono(scores, Below(p), Below(q));
    FractionMono(CountWhere(scores, Below(p)) as real, CountWhere(scores, Below(q)) as real, |scores| as real);
  }

  /** A probability above every score gives 1, one at or below every score gives 0. */
  lemma GreaterThanExtremes(scores: seq<real>, prob: real)
    requires scores != []
    ensures (forall i :: 0 <= i < |scores| ==> scores[i] < prob) ==> GreaterThan(scores, prob) == Some(1.0)
    ensures (forall i :: 0 <= i < |scores| ==> prob <= scores[i]) ==> GreaterThan(scores, prob) == Some(0.0)
  {
    FractionEnds(|scores| as real);
    if forall i :: 0 <= i < |scores| ==> scores[i] < prob {
      FilterAllPass(scores, Below(prob));
      assert CountWhere(scores, Below(prob)) == |scores|;
    }
    if forall i :: 0 <= i < |scores| ==> prob <= scores[i] {
      FilterNonePass(scores, Below(prob));
      assert CountWhere(scores, Below(prob)) == 0;
    }
  }

  /**
   * The artifacts and the external steps of the pipeline: the preprocessor
   * settings, the word segmenter, each field's vectorizer (its transform of a
   * token list and its feature names), the selected tokens, the historical
   * scores, the natural logarithm, and the filtering, normalisation and
   * cosine similarity that turn the vectors into one similarity per
   * historical project.
   */
  datatype Pipeline = Pipeline(
    preprocessor: Preprocessor.Config,
    segment: string -> seq<string>,
    transform: Suggest.PerField<seq<string> -> seq<real>>,
    featureNames: Suggest.PerField<seq<string>>,
    selectedTokens: Suggest.PerField<seq<string>>,
    scores: seq<real>,
    ln: real -> real,
    similarity: Suggest.PerField<seq<real>> -> seq<real>)

  /** One field through tokenize: segmented, then preprocessed as a flat token list. */
  function TokenizeText(cfg: Preprocessor.Config, segment: string -> seq<string>, text: string): (tokens: seq<string>)
    ensures tokens == cfg.SingleProcess(segment(text))
  {
    var doc := segment(text);
    assert doc == [] ==> cfg.SingleProcess(doc) == [];
    cfg.Preprocess(Preprocessor.Flat(doc)).tokens
  }

  /** tokenize: the three text fields' token lists. */
  function Tokenize(env: Pipeline, p: Project): Suggest.PerField<seq<string>> {
    Suggest.PerField(
      TokenizeText(env.preprocessor, env.segment, p.title),
      TokenizeText(env.preprocessor, env.segment, p.description),
      TokenizeText(env.preprocessor, env.segment, p.content))
  }

  /** With the default preprocessor, every token is non-empty and has no space and no filtered character. */
  lemma TokenizeClean(env: Pipeline, p: Project, delimiters: seq<string>, f: Suggest.Field)
    requires env.preprocessor == Preprocessor.DefaultConfig(delimiters)
    ensures forall t :: t in Tokenize(env, p).Get(f) ==>
      t != [] && Preprocessor.NoSpace(t) && forall i :: 0 <= i < |t| ==> !Preprocessor.IsFilterChar(t[i])
  {
    var text := match f case Title => p.title case Description => p.description case Content => p.content;
    assert Tokenize(env, p).Get(f) == TokenizeText(env.preprocessor, env.segment, text);
    Preprocessor.SingleProcessTokens(delimiters, env.segment(text));
  }

  /** `vector_all`: each field's vectorizer applied to its tokens. */
  function VectorAll(env: Pipeline, tokens: Suggest.PerField<seq<string>>): Suggest.PerField<seq<real>> {
    Suggest.PerField(env.transform.title(tokens.title), env.transform.description(tokens.description),
      env.transform.content(tokens.content))
  }

  /** The module-level `features`: each field's selected feature names. */
  function Features(env: Pipeline): Suggest.PerField<seq<string>> {
    Suggest.PerField(
      SelectedFeatures(env.featureNames.title, env.selectedTokens.title),
      SelectedFeatures(env.featureNames.description, env.selectedTokens.description),
      SelectedFeatures(env.featureNames.content, env.selectedTokens.content))
  }

  /** `input_vector`: each field's vector masked by its selected features. */
  function InputVectors(env: Pipeline, all: Suggest.PerField<seq<real>>): (r: Result<Suggest.PerField<seq<real>>, EstimateError>)
    ensures r.Ok? <==> forall f :: |all.Get(f)| == |env.featureNames.Get(f)|
    ensures r.Err? ==> r.error == MaskLengthMismatch
    ensures r.Ok? ==> forall f :: |r.value.Get(f)| == |Features(env).Get(f)|
  {
    var t := InputVector(all.title, env.featureNames.title, env.selectedTokens.title);
    var d := InputVector(all.description, env.featureNames.description, env.selectedTokens.description);
    var c := InputVector(all.content, env.featureNames.content, env.selectedTokens.content);
    if t.Err? || d.Err? || c.Err? then
      assert t.Err? ==> |all.Get(Suggest.Title)| != |env.featureNames.Get(Suggest.Title)|;
      assert d.Err? ==> |all.Get(Suggest.Description)| != |env.featureNames.Get(Suggest.Description)|;
      assert c.Err? ==> |all.Get(Suggest.Content)| != |env.featureNames.Get(Suggest.Content)|;
      Err(MaskLengthMismatch)
    else
      Ok(Suggest.PerField(t.value, d.value, c.value))
  }

  /** The project's classifier score: get_input, then predict_prob of its single row. */
  function Score(env: Pipeline, thr: Thresholder.Thresholder, p: Project): (r: Result<real, EstimateError>)
    reads thr
  {
    match InputVectors(env, VectorAll(env, Tokenize(env, p)))
    case Err(e) => Err(e)
    case Ok(iv) =>
      match InputFrame(iv, Features(env), MetadataRow(p, env.ln))
      case Err(e) => Err(e)
      case Ok(frame) =>
        match thr.PredictProb([frame.values])
        case Err(e) => Err(ClassifierFailed(e))
        case Ok(prob) => Ok(prob[0])
  }

  /**
   * Vectors as wide as their vectorizers' feature lists always give a
   * frame: the mask that selects the feature names also selects the vector
   * columns, so the widths agree and only the classifier can fail.
   */
  lemma ScoreShapes(env: Pipeline, thr: Thresholder.Thresholder, p: Project)
    requires forall f :: |VectorAll(env, Tokenize(env, p)).Get(f)| == |env.featureNames.Get(f)|
    ensures Score(env, thr, p).Err? ==> Score(env, thr, p).error.ClassifierFailed?
  {
    var iv := InputVectors(env, VectorAll(env, Tokenize(env, p)));
    InputFrameBuilt(iv.value, Features(env), MetadataRow(p, env.ln));
  }

  /** The keys of the project that get_suggestion reads, the three lengths and the duration as get_metadata wrote them. */
  function FactsOf(p: Project): Suggest.ProjectFacts {
    Suggest.ProjectFacts(p.domain, p.projectType, p.goal, |p.content|, WholeDays(p.startTime, p.endTime),
      p.maxSetPrices, |p.description|, p.minSetPrices)
  }

  /** The estimation: the score, the fraction of historical scores below it, and the suggestion keys. */
  datatype Estimation = Estimation(score: real, greaterThan: Option<real>, suggestion: Suggest.Suggestion)

  /**
   * Lines 155-159: tokenize, vectorize and mask the three text fields, build
   * the input row (writing three keys into the project) and score it. A mask
   * of the wrong length stops the pipeline before the project is written.
   */
  method Classify(project: ProjectDict, env: Pipeline, thr: Thresholder.Thresholder) returns (r: Result<real, EstimateError>)
    modifies project
    ensures r == Score(env, thr, project.submitted)
    ensures var all := VectorAll(env, Tokenize(env, project.submitted));
      project.written ==
        if InputVectors(env, all).Ok? then Written(old(project.written), project.submitted) else old(project.written)
  {
    var tokens := Tokenize(env, project.submitted);
    var all := VectorAll(env, tokens);
    var inputVector := InputVectors(env, all);
    if inputVector.Err? {
      return Err(inputVector.error);
    }
    var x := GetInput(project, inputVector.value, Features(env), env.ln);
    if x.Err? {
      return Err(x.error);
    }
    var prob := thr.PredictProb([x.value.values]);
    if prob.Err? {
      return Err(ClassifierFailed(prob.error));
    }
    r := Ok(prob.value[0]);
  }

  /**
   * get_estimation: the score, its rank among the historical scores, and the
   * suggestions, which write the similarity column of the corpus. A frame
   * or classifier failure stops the pipeline before the corpus is written;
   * the axis error of get_text_suggestion comes after it.
   */
  method GetEstimation(project: ProjectDict, env: Pipeline, thr: Thresholder.Thresholder, corpus: Suggest.Corpus)
    returns (r: Result<Estimation, EstimateError>)
    requires corpus.Valid()
    modifies project, corpus
    ensures corpus.Valid()
    ensures var all := VectorAll(env, Tokenize(env, project.submitted));
      project.written ==
        if InputVectors(env, all).Ok? then Written(old(project.written), project.submitted) else old(project.written)
    ensures Score(env, thr, project.submitted).Err? ==>
      r == Err(Score(env, thr, project.submitted).error) && corpus.dataset == old(corpus.dataset)
    ensures Score(env, thr, project.submitted).Ok? ==>
      var score := Score(env, thr, project.submitted).value;
      var tokens := Tokenize(env, project.submitted);
      var cos := env.similarity(VectorAll(env, tokens));
      if |cos| != |old(corpus.dataset)| then
        r == Err(SuggestFailed(Suggest.LengthMismatch)) && corpus.dataset == old(corpus.dataset)
      else
        corpus.dataset == Suggest.WithCos(old(corpus.dataset), cos) && Suggest.PeersIn(Suggest.TopPeers(cos), |corpus.dataset|) &&
        var suggestion := Suggest.SuggestionAsWritten(corpus.dataset, corpus.artifacts, Suggest.TopPeers(cos), FactsOf(project.submitted), tokens);
        r == if suggestion.Err? then Err(SuggestFailed(suggestion.error))
             else Ok(Estimation(score, GreaterThan(env.scores, score), suggestion.value))
  {
    var prob := Classify(project, env, thr);
    if prob.Err? {
      return Err(prob.error);
    }
    var p := project.submitted;
    var tokens := Tokenize(env, p);
    var score := prob.value;
    var greaterThan := GreaterThan(env.scores, score);
    var written := project.written;
    var facts := Suggest.ProjectFacts(p.domain, p.projectType, p.goal, written["content_length"],
      written["duration_days"], p.maxSetPrices, written["description_length"], p.minSetPrices);
    var suggestion := corpus.GetSuggestion(facts, env.similarity(VectorAll(env, tokens)), tokens);
    if suggestion.Err? {
      return Err(SuggestFailed(suggestion.error));
    }
    r := Ok(Estimation(score, greaterThan, suggestion.value));
  }
}
