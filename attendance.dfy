/**
 * Game-time attendance of `utils/attendance.js`: bucketing the responses,
 * rendering the buckets and writing them into the poll embed in place.
 */
module Attendance {
  import opened Text
  import Embeds

  /** One stored response to a game-time poll. */
  datatype AttendanceRecord = AttendanceRecord(userId: string, response: string)

  /** The object returned by `groupAttendanceByResponse`. */
  datatype Grouped = Grouped(attending: seq<AttendanceRecord>, maybe: seq<AttendanceRecord>, notAttending: seq<AttendanceRecord>)

  /** The records with response `resp`, in input order. */
  function WithResponse(records: seq<AttendanceRecord>, resp: string): (r: seq<AttendanceRecord>)
    ensures |r| <= |records|
    ensures forall i :: 0 <= i < |r| ==> r[i].response == resp
  {
    if records == [] then []
    else
      var last := records[|records| - 1];
      WithResponse(records[..|records| - 1], resp) + (if last.response == resp then [last] else [])
  }

  /**
   * The bucket keeps input order: it distributes over concatenation, and a
   * single record is kept exactly when it has that response.
   */
  lemma {:induction false} WithResponseAppend(a: seq<AttendanceRecord>, b: seq<AttendanceRecord>, resp: string)
    ensures WithResponse(a + b, resp) == WithResponse(a, resp) + WithResponse(b, resp)
    ensures |b| == 1 ==> WithResponse(b, resp) == if b[0].response == resp then b else []
  {
    if b != [] {
      var init := b[..|b| - 1];
      assert (a + b)[..|a + b| - 1] == a + init;
      assert (a + b)[|a + b| - 1] == b[|b| - 1];
      WithResponseAppend(a, init, resp);
    } else {
      assert a + b == a;
    }
  }

  /** The records whose response is none of the three known ones. */
  function Unknown(records: seq<AttendanceRecord>): seq<AttendanceRecord> {
    if records == [] then []
    else
      var last := records[|records| - 1];
      Unknown(records[..|records| - 1])
        + (if last.response in {"attending", "maybe", "not_attending"} then [] else [last])
  }

  /** The grouping, as a function of the input. */
  function Group(records: seq<AttendanceRecord>): Grouped {
    Grouped(WithResponse(records, "attending"), WithResponse(records, "maybe"), WithResponse(records, "not_attending"))
  }

  /** `groupAttendanceByResponse(attendanceList)`: one pass pushing each record into its bucket. */
  method GroupAttendanceByResponse(attendanceList: seq<AttendanceRecord>) returns (grouped: Grouped)
    ensures grouped == Group(attendanceList)
  {
    var attending, maybe, notAttending := [], [], [];
    var i := 0;
    while i < |attendanceList|
      invariant 0 <= i <= |attendanceList|
      invariant attending == WithResponse(attendanceList[..i], "attending")
      invariant maybe == WithResponse(attendanceList[..i], "maybe")
      invariant notAttending == WithResponse(attendanceList[..i], "not_attending")
    {
      var record := attendanceList[i];
      assert attendanceList[..i + 1][..i] == attendanceList[..i];
      if record.response == "attending" {
        attending := attending + [record];
      } else if record.response == "maybe" {
        maybe := maybe + [record];
      } else if record.response == "not_attending" {
        notAttending := notAttending + [record];
      }
      i := i + 1;
    }
    assert attendanceList[..i] == attendanceList;
    grouped := Grouped(attending, maybe, notAttending);
  }

  /**
   * A record with response `resp` occurs in the `resp` bucket as often as in
   * the input; a record with another response does not occur in it at all.
   */
  lemma {:induction false} BucketCounts(records: seq<AttendanceRecord>, resp: string, x: AttendanceRecord)
    ensures x.response == resp ==> multiset(WithResponse(records, resp))[x] == multiset(records)[x]
    ensures x.response != resp ==> multiset(WithResponse(records, resp))[x] == 0
  {
    if records != [] {
      var init := records[..|records| - 1];
      BucketCounts(init, resp, x);
      assert records == init + [records[|records| - 1]];
    }
  }

  /** The three buckets and the unknown responses split the input: nothing is lost or counted twice. */
  lemma {:induction false} BucketsPartition(records: seq<AttendanceRecord>)
    ensures |WithResponse(records, "attending")| + |WithResponse(records, "maybe")|
      + |WithResponse(records, "not_attending")| + |Unknown(records)| == |records|
  {
    if records != [] {
      BucketsPartition(records[..|records| - 1]);
    }
  }

  /** So the buckets together never hold more than the input. */
  lemma BucketsBounded(records: seq<AttendanceRecord>)
    ensures var g := Group(records); |g.attending| + |g.maybe| + |g.notAttending| <= |records|
  {
    BucketsPartition(records);
  }

  // ---------------------------------------------------------------------------
  // formatAttendanceEmbed
  // ---------------------------------------------------------------------------

  /** The object returned by `formatAttendanceEmbed`. */
  datatype Formatted = Formatted(attending: string, maybe: string, notAttending: string, totalResponses: nat)

  const NoneYet := "None yet"

  function UserIds(records: seq<AttendanceRecord>): (r: seq<string>)
    ensures |r| == |records|
    ensures forall i :: 0 <= i < |records| ==> r[i] == records[i].userId
  {
    if records == [] then [] else [records[0].userId] + UserIds(records[1..])
  }

  /** One bucket: its mentions joined by ', ', or 'None yet' when it is empty. */
  function FormatBucket(bucket: seq<AttendanceRecord>): (r: string)
    ensures bucket == [] ==> r == NoneYet
    ensures bucket != [] ==> r == Join(Mentions(UserIds(bucket)), ", ")
  {
    if |bucket| > 0 then Join(Mentions(UserIds(bucket)), ", ") else NoneYet
  }

  /** 'None yet' is shown exactly for an empty bucket. */
  lemma FormatBucketNoneIff(bucket: seq<AttendanceRecord>)
    ensures FormatBucket(bucket) == NoneYet <==> bucket == []
  {
    if bucket != [] {
      JoinStartsWith(Mentions(UserIds(bucket)), ", ");
      assert FormatBucket(bucket)[0] == '<';
    }
  }

  /** `formatAttendanceEmbed(grouped)`: one text per bucket and the number of responses in the buckets. */
  function FormatAttendanceEmbed(grouped: Grouped): (r: Formatted)
    ensures r.attending == FormatBucket(grouped.attending)
    ensures r.maybe == FormatBucket(grouped.maybe)
    ensures r.notAttending == FormatBucket(grouped.notAttending)
    ensures r.totalResponses == |grouped.attending| + |grouped.maybe| + |grouped.notAttending|
  {
    Formatted(
      FormatBucket(grouped.attending),
      FormatBucket(grouped.maybe),
      FormatBucket(grouped.notAttending),
      |grouped.attending| + |grouped.maybe| + |grouped.notAttending|)
  }

  /** Every record with a known response is counted once: the total is the input less the unknown responses. */
  lemma TotalResponsesCountsKnown(records: seq<AttendanceRecord>)
    ensures FormatAttendanceEmbed(Group(records)).totalResponses == |records| - |Unknown(records)|
  {
    BucketsPartition(records);
  }

  // ---------------------------------------------------------------------------
  // updateGametimeMessage
  // ---------------------------------------------------------------------------

  /** The poll embed whose field values the update overwrites in place. */
  class PollEmbed {
    var fields: seq<Embeds.Field>

    constructor (fields: seq<Embeds.Field>)
      ensures this.fields == fields
    {
      this.fields := fields;
    }

    /**
     * `updateGametimeMessage(interaction, gametimeId, embed)` given the poll's
     * stored responses: the values of fields 0, 1 and 2 become the attending,
     * maybe and not-attending texts; names, flags and every later field stay.
     * With fewer than three fields the source fails on the first missing one,
     * after writing the ones before it: `ok` is false then.
     */
    method UpdateGametimeMessage(attendance: seq<AttendanceRecord>) returns (ok: bool)
      modifies this
      ensures ok <==> |old(fields)| >= 3
      ensures |fields| == |old(fields)|
      ensures var f := FormatAttendanceEmbed(Group(attendance));
        var values := [f.attending, f.maybe, f.notAttending];
        forall k :: 0 <= k < |fields| ==>
          fields[k] == if k < 3 then old(fields[k]).(value := values[k]) else old(fields[k])
    {
      var grouped := GroupAttendanceByResponse(attendance);
      var formatted := FormatAttendanceEmbed(grouped);
      if |fields| < 1 {
        return false;
      }
      fields := fields[0 := fields[0].(value := formatted.attending)];
      if |fields| < 2 {
        return false;
      }
      fields := fields[1 := fields[1].(value := formatted.maybe)];
      if |fields| < 3 {
        return false;
      }
      fields := fields[2 := fields[2].(value := formatted.notAttending)];
      ok := true;
    }
  }
}
