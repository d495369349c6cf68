/**
  The black box as the program runs it: a configuration object whose
  counter, switch and trace the engine updates in place, and the engine's
  public operations on it. Each method is tied to the value-level
  description in `Trace`, where its properties are proved.
*/
module Engine {
  import opened Text
  import opened Wrappers
  import opened Gate
  import opened Trace

  /** `ZhesiBlackBoxConfig`: the session id and start time, the recording
      switch, the cognitive-depth counter and the trace. */
  class Config {
    const recordId: string
    const recordStart: string
    var isRecording: bool
    var cogDepth: nat
    var thinkRecords: seq<ThinkRecord>

    /** A new session: `sessionSeconds` is the clock reading in whole
        seconds and `startTime` the formatted start time. */
    constructor (sessionSeconds: nat, startTime: string)
      ensures recordId == "zhesi_blackbox_" + NatToString(sessionSeconds)
      ensures recordStart == startTime
      ensures isRecording && cogDepth == 0 && thinkRecords == []
    {
      recordId := "zhesi_blackbox_" + NatToString(sessionSeconds);
      recordStart := startTime;
      isRecording := true;
      cogDepth := 0;
      thinkRecords := [];
    }

    /** The mutable part of the configuration as a value. */
    function Snapshot(): State
      reads this
    {
      State(isRecording, cogDepth, thinkRecords)
    }
  }

  /** What `export_records` writes: the session header and every record. */
  datatype ExportSummary = ExportSummary(
    recordId: string,
    recordStart: string,
    exportTime: string,
    thinkCount: nat,
    cogDepth: nat,
    records: seq<ThinkRecord>,
    filePath: string)

  /** Why `export_records` exports nothing. */
  datatype ExportError = NothingToExport | WriteFailed

  /** `ZhesiBlackBox`: the engine over one configuration. */
  class BlackBox {
    const config: Config

    constructor (config: Config)
      ensures this.config == config
    {
      this.config := config;
    }

    /** `_core_think`: raise the counter by one, then think at the new depth. */
    method CoreThink(question: string) returns (result: ThinkResult)
      modifies config
      ensures config.cogDepth == old(config.cogDepth) + 1
      ensures result == Think(question, config.cogDepth)
      ensures config.isRecording == old(config.isRecording)
      ensures config.thinkRecords == old(config.thinkRecords)
    {
      config.cogDepth := config.cogDepth + 1;
      var basis := Basis(config.cogDepth);
      var answer := Answers.Answer(question, config.cogDepth, config.cogDepth);
      result := ThinkResult(answer, config.cogDepth, basis);
    }

    /** `_record_think`: append the record of this thought to the trace;
        `millis` and `thinkTime` are the clock readings it stores. */
    method RecordThink(question: string, result: ThinkResult, millis: nat, thinkTime: string)
      returns (record: ThinkRecord)
      modifies config
      ensures record == NewRecord(question, result, config.cogDepth, millis, thinkTime)
      ensures config.thinkRecords == old(config.thinkRecords) + [record]
      ensures config.cogDepth == old(config.cogDepth)
      ensures config.isRecording == old(config.isRecording)
    {
      record := ThinkRecord(ThinkId(millis), thinkTime, Strip(question), result.answer,
                            result.cogDimension, result.thinkBasis, Evolution(config.cogDepth));
      config.thinkRecords := config.thinkRecords + [record];
    }

    /** `ask`: the gate, then the pause check, then one thought and its
        record. A refused question leaves the configuration as it was. */
    method Ask(question: string, millis: nat, thinkTime: string)
      returns (reply: Result<AskReply, AskError>)
      modifies config
      ensures AskOutcome(config.Snapshot(), reply)
                == AskStep(old(config.Snapshot()), question, millis, thinkTime)
    {
      ghost var before := config.Snapshot();
      var verdict := CheckLegal(question);
      if verdict.Illegal? {
        AskStepWhenRefused(before, question, millis, thinkTime);
        return Failure(Rejected(verdict.error));
      }
      if !config.isRecording {
        AskStepWhenPaused(before, question, millis, thinkTime);
        return Failure(RecordingPaused);
      }
      var coreRes := CoreThink(question);
      var record := RecordThink(question, coreRes, millis, thinkTime);
      assert config.thinkRecords == before.records + [record];
      reply := Success(AskReply(Strip(question), coreRes.answer, coreRes.cogDimension,
                                coreRes.thinkBasis, config.thinkRecords[|config.thinkRecords| - 1].thinkId));
      assert reply == Success(AskReply(Strip(question), record.answer, before.cogDepth + 1,
                                       record.thinkBasis, record.thinkId));
      AskStepWhenLegal(before, question, millis, thinkTime);
    }

    /** `trace_think`: refuse a malformed id, otherwise scan the trace from
        the oldest record and return the first one with that id. */
    method TraceThink(thinkId: string) returns (r: Result<ThinkRecord, TraceError>)
      ensures r == TraceResult(config.thinkRecords, thinkId)
    {
      if |thinkId| == 0 || !StartsWith(thinkId, IdPrefix) {
        return Failure(MalformedId);
      }
      var records := config.thinkRecords;
      var i := 0;
      while i < |records|
        invariant i <= |records|
        invariant forall j :: 0 <= j < i ==> records[j].thinkId != thinkId
      {
        if records[i].thinkId == thinkId {
          return Success(records[i]);
        }
        i := i + 1;
      }
      return Failure(NotFound(thinkId));
    }

    /** `export_records`: nothing to export on an empty trace; otherwise the
        session header with the record count and the current counter, and
        every record. `writeOk` says whether writing the file succeeded;
        `filePath` has the source's default. */
    method ExportRecords(exportTime: string, writeOk: bool,
                         filePath: string := "./zhesi_blackbox_records.json")
      returns (r: Result<ExportSummary, ExportError>)
      ensures |config.thinkRecords| == 0 ==> r == Failure(NothingToExport)
      ensures |config.thinkRecords| > 0 && !writeOk ==> r == Failure(WriteFailed)
      ensures r.Success? <==> |config.thinkRecords| > 0 && writeOk
      ensures r.Success? ==>
                && r.value.thinkCount == |config.thinkRecords|
                && r.value.records == config.thinkRecords
                && r.value.cogDepth == config.cogDepth
                && r.value.recordId == config.recordId
                && r.value.recordStart == config.recordStart
                && r.value.exportTime == exportTime
                && r.value.filePath == filePath
    {
      if |config.thinkRecords| == 0 {
        return Failure(NothingToExport);
      }
      if !writeOk {
        return Failure(WriteFailed);
      }
      r := Success(ExportSummary(config.recordId, config.recordStart, exportTime,
                                 |config.thinkRecords|, config.cogDepth, config.thinkRecords, filePath));
    }

    /** `reset_cog_depth`: the counter goes back to 0; the trace stays. */
    method ResetCogDepth()
      modifies config
      ensures config.Snapshot() == old(config.Snapshot()).(cogDepth := 0)
    {
      config.cogDepth := 0;
    }

    /** `pause_record`: turn recording off and nothing else. */
    method PauseRecord()
      modifies config
      ensures config.Snapshot() == old(config.Snapshot()).(isRecording := false)
    {
      config.isRecording := false;
    }

    /** `resume_record`: turn recording on and nothing else. */
    method ResumeRecord()
      modifies config
      ensures config.Snapshot() == old(config.Snapshot()).(isRecording := true)
    {
      config.isRecording := true;
    }
  }
}
