/** The run-level metrics of the oldest generation (src/metrics.rb): one record per
    indexed test file plus running totals, with derived `ok`, `failed`, `failed_files`
    and a speed that is guarded against a zero duration. Durations are whole seconds;
    Ruby raising on an unknown file is reported as a `false` success flag or `None`. */
module SrcMetrics {
  import opened Values

  /** One element of `@files`. */
  datatype FileRecord = FileRecord(file: string, total: int, passed: int, failed: int, ok: bool,
                                   durationSeconds: nat, speedTpm: int, indexDurationSeconds: nat, error: string)

  /** The record `file_add` appends. */
  function Indexed(testFile: string, count: int, indexDurationSeconds: nat): (r: FileRecord)
    ensures r.file == testFile && r.total == count && r.indexDurationSeconds == indexDurationSeconds
    ensures r.passed == 0 && r.failed == 0 && !r.ok && r.durationSeconds == 0 && r.speedTpm == 0 && r.error == ""
  {
    FileRecord(testFile, count, 0, 0, false, 0, 0, indexDurationSeconds, "")
  }

  /** `(total * 60 / duration.to_f).round` on whole seconds: the tests per minute,
      rounded half away from zero. */
  function Speed(total: int, durationSeconds: nat): (r: int)
    requires durationSeconds > 0
    ensures total >= 0 ==> r >= 0
    ensures total >= 0 ==> 2 * r * durationSeconds <= 120 * total + durationSeconds
    ensures total >= 0 ==> 120 * total + durationSeconds < 2 * (r + 1) * durationSeconds
  {
    var n := total * 60;
    if n >= 0 then (2 * n + durationSeconds) / (2 * durationSeconds)
    else -((2 * -n + durationSeconds) / (2 * durationSeconds))
  }

  function SumTotals(files: seq<FileRecord>): int {
    if files == [] then 0 else SumTotals(files[..|files| - 1]) + files[|files| - 1].total
  }

  function SumIndexDurations(files: seq<FileRecord>): nat {
    if files == [] then 0 else SumIndexDurations(files[..|files| - 1]) + files[|files| - 1].indexDurationSeconds
  }

  /** Replacing one record by one with the same total keeps the sum of totals. */
  lemma {:induction false} SumTotalsUpdate(files: seq<FileRecord>, i: nat, r: FileRecord)
    requires i < |files| && r.total == files[i].total
    ensures SumTotals(files[i := r]) == SumTotals(files)
  {
    if i < |files| - 1 {
      assert files[i := r][..|files| - 1] == files[..|files| - 1][i := r];
      SumTotalsUpdate(files[..|files| - 1], i, r);
    } else {
      assert files[i := r][..|files| - 1] == files[..|files| - 1];
    }
  }

  lemma {:induction false} SumIndexDurationsUpdate(files: seq<FileRecord>, i: nat, r: FileRecord)
    requires i < |files| && r.indexDurationSeconds == files[i].indexDurationSeconds
    ensures SumIndexDurations(files[i := r]) == SumIndexDurations(files)
  {
    if i < |files| - 1 {
      assert files[i := r][..|files| - 1] == files[..|files| - 1][i := r];
      SumIndexDurationsUpdate(files[..|files| - 1], i, r);
    } else {
      assert files[i := r][..|files| - 1] == files[..|files| - 1];
    }
  }

  /** `file_completed`'s update of one record. */
  function Completed(r: FileRecord, passed: int, durationSeconds: nat): (c: FileRecord)
    ensures c.failed == r.total - passed && (c.ok <==> r.total == passed)
    ensures c.passed == passed && c.durationSeconds == durationSeconds
    ensures durationSeconds == 0 ==> c.speedTpm == r.speedTpm
    ensures durationSeconds > 0 ==> c.speedTpm == Speed(r.total, durationSeconds)
    ensures c.file == r.file && c.total == r.total && c.indexDurationSeconds == r.indexDurationSeconds && c.error == r.error
  {
    r.(passed := passed, durationSeconds := durationSeconds,
       speedTpm := if durationSeconds > 0 then Speed(r.total, durationSeconds) else r.speedTpm,
       failed := r.total - passed, ok := r.total == passed)
  }

  /** Every recorded index points at a record of that file, and every record's file is indexed. */
  predicate IndexConsistent(files: seq<FileRecord>, filesIndex: map<string, nat>) {
    && (forall f :: f in filesIndex ==> filesIndex[f] < |files| && files[filesIndex[f]].file == f)
    && (forall i :: 0 <= i < |files| ==> files[i].file in filesIndex)
  }

  /** Appending a record and pointing its file at it keeps the index consistent. */
  lemma IndexAppend(files: seq<FileRecord>, filesIndex: map<string, nat>, r: FileRecord)
    requires IndexConsistent(files, filesIndex)
    ensures IndexConsistent(files + [r], filesIndex[r.file := |files|])
  {
    var files', index' := files + [r], filesIndex[r.file := |files|];
    forall f | f in index'
      ensures index'[f] < |files'| && files'[index'[f]].file == f
    {
      if f != r.file {
        assert files'[filesIndex[f]] == files[filesIndex[f]];
      }
    }
  }

  /** Replacing a record by one of the same file keeps the index consistent. */
  lemma IndexReplace(files: seq<FileRecord>, filesIndex: map<string, nat>, i: nat, r: FileRecord)
    requires IndexConsistent(files, filesIndex)
    requires i < |files| && r.file == files[i].file
    ensures IndexConsistent(files[i := r], filesIndex)
  {
  }

  class Metrics {
    var total: int
    var passed: int
    var durationSeconds: nat
    var totalFiles: nat
    var passedFiles: nat
    var indexDurationSeconds: nat
    var files: seq<FileRecord>
    var filesIndex: map<string, nat>

    /** One record per added file, every recorded index pointing at a record of that
        file, and the totals equal to the sums over the records. */
    predicate Valid()
      reads this
    {
      |files| == totalFiles
      && IndexConsistent(files, filesIndex)
      && total == SumTotals(files)
      && indexDurationSeconds == SumIndexDurations(files)
    }

    constructor ()
      ensures Valid()
      ensures total == 0 && passed == 0 && durationSeconds == 0 && totalFiles == 0 && passedFiles == 0
      ensures indexDurationSeconds == 0 && files == [] && filesIndex == map[]
    {
      total := 0;
      passed := 0;
      durationSeconds := 0;
      totalFiles := 0;
      passedFiles := 0;
      indexDurationSeconds := 0;
      files := [];
      filesIndex := map[];
    }

    /** `file_add(test_file, count, index_duration_seconds)`: a fresh record at the old
        `total_files`, which is returned and from then on found by `file`. */
    method FileAdd(testFile: string, count: int, indexDuration: nat) returns (idx: nat)
      requires Valid()
      modifies this
      ensures Valid()
      ensures idx == old(totalFiles) && totalFiles == old(totalFiles) + 1
      ensures total == old(total) + count && indexDurationSeconds == old(indexDurationSeconds) + indexDuration
      ensures files == old(files) + [Indexed(testFile, count, indexDuration)]
      ensures filesIndex == old(filesIndex)[testFile := idx]
      ensures File(testFile) == Some(Indexed(testFile, count, indexDuration))
      ensures passed == old(passed) && passedFiles == old(passedFiles) && durationSeconds == old(durationSeconds)
    {
      var record := Indexed(testFile, count, indexDuration);
      IndexAppend(files, filesIndex, record);
      assert (files + [record])[..|files|] == files;
      filesIndex := filesIndex[testFile := totalFiles];
      totalFiles := totalFiles + 1;
      total := total + count;
      indexDurationSeconds := indexDurationSeconds + indexDuration;
      files := files + [record];
      idx := totalFiles - 1;
    }

    /** `file(test_file)`: the record at the file's index; None where Ruby raises for a
        file that was never added. */
    function File(testFile: string): (r: Option<FileRecord>)
      requires Valid()
      reads this
      ensures r.Some? <==> testFile in filesIndex
      ensures r.Some? ==> r.value.file == testFile && r.value in files
    {
      if testFile in filesIndex then Some(files[filesIndex[testFile]]) else None
    }

    /** `file_error(test_file, error)`; false where Ruby raises. */
    method FileError(testFile: string, error: string) returns (done: bool)
      requires Valid()
      modifies this
      ensures Valid()
      ensures done <==> testFile in old(filesIndex)
      ensures done ==> files == old(files)[old(filesIndex)[testFile] := old(files)[old(filesIndex)[testFile]].(error := error)]
      ensures !done ==> files == old(files)
      ensures total == old(total) && passed == old(passed) && totalFiles == old(totalFiles) && passedFiles == old(passedFiles)
      ensures durationSeconds == old(durationSeconds) && indexDurationSeconds == old(indexDurationSeconds)
      ensures filesIndex == old(filesIndex)
    {
      if testFile !in filesIndex {
        return false;
      }
      var idx := filesIndex[testFile];
      SumTotalsUpdate(files, idx, files[idx].(error := error));
      SumIndexDurationsUpdate(files, idx, files[idx].(error := error));
      IndexReplace(files, filesIndex, idx, files[idx].(error := error));
      files := files[idx := files[idx].(error := error)];
      done := true;
    }

    /** `speed_tpm`: 0 before any duration has been recorded. */
    function SpeedTpm(): (r: int)
      reads this
      ensures durationSeconds == 0 ==> r == 0
      ensures durationSeconds > 0 ==> r == Speed(total, durationSeconds)
    {
      if durationSeconds == 0 then 0 else Speed(total, durationSeconds)
    }

    /** `ok`: every indexed test passed. */
    predicate Ok()
      reads this
    {
      total == passed
    }

    /** `failed` */
    function Failed(): (r: int)
      reads this
      ensures r == 0 <==> Ok()
    {
      total - passed
    }

    /** `failed_files` */
    function FailedFiles(): (r: int)
      reads this
      ensures r + passedFiles == totalFiles
    {
      totalFiles - passedFiles
    }

    /** `file_completed(test_file, passed, duration_seconds)`: the file's record takes the
        pass count and duration, `failed` becomes `total - passed` and `ok` holds exactly
        when every test passed; the run totals grow by `passed` and the duration, and
        `passed_files` by one when the file is ok. False where Ruby raises. */
    method FileCompleted(testFile: string, filePassed: int, duration: nat) returns (done: bool)
      requires Valid()
      modifies this
      ensures Valid()
      ensures done <==> testFile in old(filesIndex)
      ensures done ==> var idx := old(filesIndex)[testFile];
        files == old(files)[idx := Completed(old(files)[idx], filePassed, duration)]
        && passed == old(passed) + filePassed
        && passedFiles == old(passedFiles) + (if old(files)[idx].total == filePassed then 1 else 0)
        && durationSeconds == old(durationSeconds) + duration
      ensures !done ==> files == old(files) && passed == old(passed) && passedFiles == old(passedFiles)
                        && durationSeconds == old(durationSeconds)
      ensures total == old(total) && totalFiles == old(totalFiles) && indexDurationSeconds == old(indexDurationSeconds)
      ensures filesIndex == old(filesIndex)
    {
      if testFile !in filesIndex {
        return false;
      }
      var idx := filesIndex[testFile];
      var record := Completed(files[idx], filePassed, duration);
      SumTotalsUpdate(files, idx, record);
      SumIndexDurationsUpdate(files, idx, record);
      IndexReplace(files, filesIndex, idx, record);
      files := files[idx := record];
      passed := passed + filePassed;
      if record.ok {
        passedFiles := passedFiles + 1;
      }
      durationSeconds := durationSeconds + duration;
      done := true;
    }
  }
}
