/**
 * The row mapping of the participant spreadsheet export (lib/utils/excel.ts):
 * each participant becomes one row with the thirteen Korean column labels,
 * and exporting an empty list is refused.
 */
module ExcelExport {
  import opened Wrappers
  import opened Text
  import opened SchemaFields
  import opened ParticipantSchema

  /** A spreadsheet cell: text or a number. */
  datatype Cell = TextCell(s: string) | NumberCell(n: int)

  /** One row: the column labels with their cells, in column order. */
  type ExcelRow = seq<(string, Cell)>

  /** `PARTICIPANT_HEADERS`, in declaration order. */
  const Headers: seq<string> := [
    "이름", "성별", "나이", "전화번호", "개월수", "첫 등록월", "회비",
    "재등록", "최근 등록", "현재 모임", "비고", "과거 모임", "등록일"]

  const NoData := "내보낼 데이터가 없습니다"
  const MaleLabel := "남성"
  const FemaleLabel := "여성"
  const YesLabel := "예"
  const NoLabel := "아니오"
  const PastMeetingSeparator := ", "

  /** The optional meeting-name resolver; it may return nothing, in which case the raw id is used. */
  type Resolver = Option<Nullish<string> -> Option<string>>

  /** `s || ''` on a nullable string. */
  function NullishText(v: Nullish<string>): (t: string)
    ensures v.Present? ==> t == v.value
    ensures v.Absent? || v.Null? ==> t == ""
  {
    if v.Present? then v.value else ""
  }

  /** `(resolver?.(id) ?? id) || ''`. */
  function MeetingCell(id: Nullish<string>, resolver: Resolver): (cell: string)
    ensures resolver.Some? && resolver.value(id).Some? ==> cell == resolver.value(id).value
    ensures (resolver.None? || resolver.value(id).None?) && id.Present? ==> cell == id.value
    ensures (resolver.None? || resolver.value(id).None?) && !id.Present? ==> cell == ""
  {
    if resolver.Some? && resolver.value(id).Some? then resolver.value(id).value else NullishText(id)
  }

  /** `participantToExcelRow`. The creation date is shown through `localeDate`, the locale's date
      formatting, which is not modelled. */
  function ParticipantToExcelRow(p: Participant, resolver: Resolver, localeDate: string -> string): (row: ExcelRow)
    ensures |row| == |Headers| && forall i :: 0 <= i < |row| ==> row[i].0 == Headers[i]
  {
    [ (Headers[0], TextCell(p.name)),
      (Headers[1], TextCell(if p.gender == Male then MaleLabel else FemaleLabel)),
      (Headers[2], NumberCell(p.age)),
      (Headers[3], TextCell(p.phone)),
      (Headers[4], NumberCell(p.months)),
      (Headers[5], TextCell(p.first_registration_month)),
      (Headers[6], NumberCell(p.fee)),
      (Headers[7], TextCell(if p.re_registration then YesLabel else NoLabel)),
      (Headers[8], TextCell(p.latest_registration)),
      (Headers[9], TextCell(MeetingCell(p.current_meeting_id, resolver))),
      (Headers[10], TextCell(NullishText(p.notes))),
      (Headers[11], TextCell(Join(p.past_meetings, PastMeetingSeparator))),
      (Headers[12], TextCell(if p.created_at.Some? && p.created_at.value != "" then localeDate(p.created_at.value) else ""))
    ]
  }

  /** The thirteen labels are distinct, so each names exactly one column. */
  lemma HeadersDistinct()
    ensures |Headers| == 13
    ensures forall i, j :: 0 <= i < j < |Headers| ==> Headers[i] != Headers[j]
  {
  }

  /** The cell under a label. */
  function CellOf(row: ExcelRow, column: string): (c: Option<Cell>)
    ensures c.None? <==> forall i :: 0 <= i < |row| ==> row[i].0 != column
    ensures c.Some? ==> exists i :: 0 <= i < |row| && row[i] == (column, c.value)
  {
    if row == [] then None
    else if row[0].0 == column then Some(row[0].1)
    else
      assert forall i :: 1 <= i < |row| ==> row[i] == row[1..][i - 1];
      CellOf(row[1..], column)
  }

  lemma {:induction false} CellOfFirst(row: ExcelRow, column: string, i: int)
    requires 0 <= i < |row| && row[i].0 == column
    requires forall j :: 0 <= j < i ==> row[j].0 != column
    ensures CellOf(row, column) == Some(row[i].1)
  {
    if i > 0 {
      CellOfFirst(row[1..], column, i - 1);
    }
  }

  /** Every column of a row is found under its own label. */
  lemma RowCell(p: Participant, resolver: Resolver, localeDate: string -> string, i: int)
    requires 0 <= i < |Headers|
    ensures CellOf(ParticipantToExcelRow(p, resolver, localeDate), Headers[i])
         == Some(ParticipantToExcelRow(p, resolver, localeDate)[i].1)
  {
    HeadersDistinct();
    CellOfFirst(ParticipantToExcelRow(p, resolver, localeDate), Headers[i], i);
  }

  /** Gender and re-registration become Korean words: `'male'` is 남성 and anything else 여성,
      `true` is 예 and `false` 아니오. */
  lemma WordCells(p: Participant, resolver: Resolver, localeDate: string -> string)
    ensures var row := ParticipantToExcelRow(p, resolver, localeDate);
      && (CellOf(row, "성별") == Some(TextCell(MaleLabel)) <==> p.gender == Male)
      && (CellOf(row, "성별") == Some(TextCell(FemaleLabel)) <==> p.gender == Female)
      && (CellOf(row, "재등록") == Some(TextCell(YesLabel)) <==> p.re_registration)
      && (CellOf(row, "재등록") == Some(TextCell(NoLabel)) <==> !p.re_registration)
  {
    RowCell(p, resolver, localeDate, 1);
    RowCell(p, resolver, localeDate, 7);
  }

  /** The numbers are exported as numbers, unchanged. */
  lemma NumberCells(p: Participant, resolver: Resolver, localeDate: string -> string)
    ensures var row := ParticipantToExcelRow(p, resolver, localeDate);
      && CellOf(row, "나이") == Some(NumberCell(p.age))
      && CellOf(row, "개월수") == Some(NumberCell(p.months))
      && CellOf(row, "회비") == Some(NumberCell(p.fee))
  {
    RowCell(p, resolver, localeDate, 2);
    RowCell(p, resolver, localeDate, 4);
    RowCell(p, resolver, localeDate, 6);
  }

  /** Each of these columns falls back to an empty cell on its own: notes that are missing, null or
      empty; no past meetings; a creation date that is missing or empty. */
  lemma EmptyCells(p: Participant, resolver: Resolver, localeDate: string -> string)
    ensures var row := ParticipantToExcelRow(p, resolver, localeDate);
      && ((p.notes.Absent? || p.notes.Null? || p.notes == Present("")) ==> CellOf(row, "비고") == Some(TextCell("")))
      && (p.past_meetings == [] ==> CellOf(row, "과거 모임") == Some(TextCell("")))
      && ((p.created_at.None? || p.created_at == Some("")) ==> CellOf(row, "등록일") == Some(TextCell("")))
  {
    RowCell(p, resolver, localeDate, 10);
    RowCell(p, resolver, localeDate, 11);
    RowCell(p, resolver, localeDate, 12);
  }

  /** The text fields are copied as they are; notes are copied when present; the creation date,
      when there is one, is shown through `localeDate`. */
  lemma TextCells(p: Participant, resolver: Resolver, localeDate: string -> string)
    ensures var row := ParticipantToExcelRow(p, resolver, localeDate);
      && CellOf(row, "이름") == Some(TextCell(p.name))
      && CellOf(row, "전화번호") == Some(TextCell(p.phone))
      && CellOf(row, "첫 등록월") == Some(TextCell(p.first_registration_month))
      && CellOf(row, "최근 등록") == Some(TextCell(p.latest_registration))
      && (p.notes.Present? ==> CellOf(row, "비고") == Some(TextCell(p.notes.value)))
      && (p.created_at.Some? && p.created_at.value != "" ==>
            CellOf(row, "등록일") == Some(TextCell(localeDate(p.created_at.value))))
  {
    RowCell(p, resolver, localeDate, 0);
    RowCell(p, resolver, localeDate, 3);
    RowCell(p, resolver, localeDate, 5);
    RowCell(p, resolver, localeDate, 8);
    RowCell(p, resolver, localeDate, 10);
    RowCell(p, resolver, localeDate, 12);
  }

  /** The meeting cell shows what the resolver returns when it returns something, else the raw id,
      else nothing; the past meetings are joined with `, `, so one is shown as it is and each
      further one adds the separator and its name. */
  lemma MeetingAndPastCells(p: Participant, resolver: Resolver, localeDate: string -> string)
    ensures var row := ParticipantToExcelRow(p, resolver, localeDate);
      && (resolver.Some? && resolver.value(p.current_meeting_id).Some? ==>
            CellOf(row, "현재 모임") == Some(TextCell(resolver.value(p.current_meeting_id).value)))
      && ((resolver.None? || resolver.value(p.current_meeting_id).None?) && p.current_meeting_id.Present? ==>
            CellOf(row, "현재 모임") == Some(TextCell(p.current_meeting_id.value)))
      && ((resolver.None? || resolver.value(p.current_meeting_id).None?) && !p.current_meeting_id.Present? ==>
            CellOf(row, "현재 모임") == Some(TextCell("")))
      && CellOf(row, "과거 모임") == Some(TextCell(Join(p.past_meetings, ", ")))
      && (|p.past_meetings| == 1 ==> CellOf(row, "과거 모임") == Some(TextCell(p.past_meetings[0])))
      && (|p.past_meetings| == 2 ==>
            CellOf(row, "과거 모임") == Some(TextCell(p.past_meetings[0] + ", " + p.past_meetings[1])))
  {
    RowCell(p, resolver, localeDate, 9);
    RowCell(p, resolver, localeDate, 11);
  }

  /** The rows of `createParticipantsExcelBlob` (and `exportParticipantsToExcel`): refused for an
      empty list, otherwise one row per participant in input order. */
  function ExportRows(ps: seq<Participant>, resolver: Resolver, localeDate: string -> string)
    : (r: Result<seq<ExcelRow>, string>)
    ensures r.Err? <==> ps == []
    ensures r.Err? ==> r.error == NoData
    ensures r.Ok? ==> |r.value| == |ps|
    ensures r.Ok? ==> forall i :: 0 <= i < |ps| ==> r.value[i] == ParticipantToExcelRow(ps[i], resolver, localeDate)
  {
    if ps == [] then Err(NoData)
    else Ok(seq(|ps|, i requires 0 <= i < |ps| => ParticipantToExcelRow(ps[i], resolver, localeDate)))
  }

  /** Exporting a list extended at the end adds its row at the end and changes no earlier row. */
  lemma ExportAppends(ps: seq<Participant>, p: Participant, resolver: Resolver, localeDate: string -> string)
    requires ps != []
    ensures ExportRows(ps + [p], resolver, localeDate).value ==
      ExportRows(ps, resolver, localeDate).value + [ParticipantToExcelRow(p, resolver, localeDate)]
  {
  }
}
