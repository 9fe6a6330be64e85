/**
 * The CSV text of the read-only profile chart
 * (src/components/ProfileChart.tsx): one month column and one of two
 * numeric columns, chosen by the chart's data key.
 */
module ProfileChart {
  import opened Series
  import Csv

  /** One month of the profile series. */
  datatype ProfileData = ProfileData(month: string, revenue: real, users: real)

  /** The `dataKey` prop: which column the chart plots and exports. */
  datatype ProfileKey = Revenue | Users

  /** `item[dataKey]`. */
  function Field(item: ProfileData, key: ProfileKey): real
  {
    match key
    case Revenue => item.revenue
    case Users => item.users
  }

  /** The `[item.month, item[dataKey]]` rows as month/value points, in data order. */
  function Column(data: seq<ProfileData>, key: ProfileKey): (r: seq<Point>)
    ensures |r| == |data|
    ensures forall i :: 0 <= i < |data| ==> r[i] == Point(data[i].month, Field(data[i], key))
  {
    seq(|data|, i requires 0 <= i < |data| => Point(data[i].month, Field(data[i], key)))
  }

  /** The text `exportToCSV` builds: the header "Month,<title>", then one row per item. */
  function CsvContent(title: string, data: seq<ProfileData>, key: ProfileKey, show: real -> string): string
  {
    Csv.Export(title, Column(data, key), show)
  }

  /** The first line is "Month," and the title. */
  lemma CsvHeader(title: string, data: seq<ProfileData>, key: ProfileKey, show: real -> string)
    ensures "Month," + title <= CsvContent(title, data, key, show)
  {
    Csv.ExportStartsWithHeader(title, Column(data, key), show);
  }

  /**
   * With plain title, months and numbers the text reads back as |data| + 1
   * lines; line i + 1 is item i's month, a comma and the selected field,
   * and nothing else.
   */
  lemma CsvLines(title: string, data: seq<ProfileData>, key: ProfileKey, show: real -> string)
    requires ',' !in title && '\n' !in title
    requires forall item :: item in data ==> ',' !in item.month && '\n' !in item.month
    requires forall item :: item in data ==> ',' !in show(Field(item, key)) && '\n' !in show(Field(item, key))
    ensures |Csv.Split(CsvContent(title, data, key, show), '\n')| == |data| + 1
    ensures Csv.Split(CsvContent(title, data, key, show), '\n')[0] == "Month," + title
    ensures forall i :: 0 <= i < |data| ==>
      Csv.Split(CsvContent(title, data, key, show), '\n')[i + 1] == data[i].month + "," + show(Field(data[i], key))
    ensures forall i :: 0 <= i < |data| ==>
      Csv.Split(Csv.Split(CsvContent(title, data, key, show), '\n')[i + 1], ',')
      == [data[i].month, show(Field(data[i], key))]
  {
    assert forall i :: 0 <= i < |data| ==> data[i] in data;
    Csv.ExportReadsBack(title, Column(data, key), show);
  }
}
