/**
 * The transcription history (core/history.py): a newest-first list of
 * records, capped at 500. The clock reading a new record carries is a
 * parameter; loading and saving the list are not part of this model.
 */
module History {
  import opened Json

  const MaxRecords := 500

  /** One history entry; `translated` is the optional `translated_text` key. */
  datatype Record = Record(time: string, asrText: string, optimizedText: string, translated: Option<string>)

  /** The record `add_record` builds: the translation key only for a
      non-empty translation. */
  function NewRecord(time: string, asrText: string, optimizedText: string, translatedText: string): (r: Record)
    ensures r.translated.Some? <==> translatedText != ""
    ensures r.translated.Some? ==> r.translated.value == translatedText
    ensures r.asrText == asrText && r.optimizedText == optimizedText && r.time == time
  {
    Record(time, asrText, optimizedText, if translatedText != "" then Some(translatedText) else None)
  }

  function Min(a: int, b: int): int { if a <= b then a else b }

  /** The list after inserting `r` at the front and cutting it to the cap. */
  function Added(records: seq<Record>, r: Record): (result: seq<Record>)
    ensures |result| == Min(|records| + 1, MaxRecords)
    ensures result[0] == r
    ensures result[1..] == records[..|result| - 1]
  {
    var grown := [r] + records;
    var result := if |grown| > MaxRecords then grown[..MaxRecords] else grown;
    assert result[1..] == records[..|result| - 1];
    result
  }

  /** Only the oldest record is ever dropped: a list below the cap keeps all
      of its records, and a full one loses exactly its last. */
  lemma AddedDropsOnlyOldest(records: seq<Record>, r: Record)
    ensures |records| < MaxRecords ==> Added(records, r) == [r] + records
    ensures |records| == MaxRecords ==> Added(records, r) == [r] + records[..MaxRecords - 1]
  {
    var result := Added(records, r);
    if |records| < MaxRecords {
      assert records[..|result| - 1] == records;
      assert result == [result[0]] + result[1..];
    } else if |records| == MaxRecords {
      assert result == [result[0]] + result[1..];
    }
  }

  /** `update_last_translation` on the list. */
  function WithLastTranslation(records: seq<Record>, translatedText: string): (result: seq<Record>)
    ensures |result| == |records|
    ensures records == [] ==> result == []
    ensures records != [] ==> result[0] == records[0].(translated := Some(translatedText))
                              && result[1..] == records[1..]
  {
    if records == [] then [] else [records[0].(translated := Some(translatedText))] + records[1..]
  }

  /** Python's `records[:n]`: a negative `n` counts from the end. */
  function Prefix(records: seq<Record>, n: int): (result: seq<Record>)
    ensures 0 <= n ==> result == records[..Min(n, |records|)]
    ensures n < 0 ==> |result| == (if |records| + n < 0 then 0 else |records| + n)
    ensures result <= records
  {
    if n >= |records| then records
    else if n >= 0 then records[..n]
    else if |records| + n >= 0 then records[..|records| + n]
    else []
  }

  /** The history manager; `records` is its `_records` list. */
  class HistoryManager {
    var records: seq<Record>

    constructor()
      ensures records == []
    {
      records := [];
    }

    method AddRecord(time: string, asrText: string, optimizedText: string, translatedText: string)
      modifies this
      ensures records == Added(old(records), NewRecord(time, asrText, optimizedText, translatedText))
    {
      var record := Record(time, asrText, optimizedText, None);
      if translatedText != "" {
        record := record.(translated := Some(translatedText));
      }
      records := [record] + records;
      if |records| > MaxRecords {
        records := records[..MaxRecords];
      }
    }

    method UpdateLastTranslation(translatedText: string)
      modifies this
      ensures records == WithLastTranslation(old(records), translatedText)
    {
      if records != [] {
        records := [records[0].(translated := Some(translatedText))] + records[1..];
      }
    }

    method GetRecent(n: int) returns (recent: seq<Record>)
      ensures 0 <= n ==> recent == records[..Min(n, |records|)]
      ensures recent == Prefix(records, n)
    {
      recent := Prefix(records, n);
    }

    method GetAll() returns (all: seq<Record>)
      ensures all == records
    {
      all := records;
    }

    method Clear()
      modifies this
      ensures records == []
    {
      records := [];
    }
  }
}
