/** The worked examples of the net server's behaviour, proved on the model. */
module ServerExamples {
  import opened Wrappers
  import opened StrOps
  import opened NetServer

  /** A segment without `=` is dropped; the others become the table's entries. */
  lemma QueryExample()
    ensures QueryParams(Some("k1=v1&k2=v2&malformed&k3=v3")) == map["k1" := "v1", "k2" := "v2", "k3" := "v3"]
  {
    ExamplePairs();
    ExampleTable();
  }

  lemma ExampleTable()
    ensures ToTable([("k1", "v1"), ("k2", "v2"), ("k3", "v3")]) == map["k1" := "v1", "k2" := "v2", "k3" := "v3"]
  {
    var pairs := [("k1", "v1"), ("k2", "v2"), ("k3", "v3")];
    assert LastForKey(pairs, 0) && LastForKey(pairs, 1) && LastForKey(pairs, 2);
    assert (set i | 0 <= i < |pairs| :: pairs[i].0) == {"k1", "k2", "k3"} by {
      assert pairs[0].0 == "k1" && pairs[1].0 == "k2" && pairs[2].0 == "k3";
    }
  }

  lemma ExamplePairs()
    ensures QueryPairs(Some("k1=v1&k2=v2&malformed&k3=v3")) == [("k1", "v1"), ("k2", "v2"), ("k3", "v3")]
  {
    ExampleSegments();
    ExampleKeyValues();
  }

  lemma ExampleSegments()
    ensures Split("k1=v1&k2=v2&malformed&k3=v3", '&') == ["k1=v1", "k2=v2", "malformed", "k3=v3"]
  {
    ExampleJoin();
    SplitJoin(["k1=v1", "k2=v2", "malformed", "k3=v3"], '&');
  }

  lemma ExampleJoin()
    ensures Join(["k1=v1", "k2=v2", "malformed", "k3=v3"], '&') == "k1=v1&k2=v2&malformed&k3=v3"
  {
    var segs := ["k1=v1", "k2=v2", "malformed", "k3=v3"];
    assert Join(segs[3..], '&') == "k3=v3";
    assert Join(segs[2..], '&') == "malformed&k3=v3";
    assert Join(segs[1..], '&') == "k2=v2&malformed&k3=v3";
  }

  lemma ExampleKeyValues()
    ensures KeyValuePairs(["k1=v1", "k2=v2", "malformed", "k3=v3"]) == [("k1", "v1"), ("k2", "v2"), ("k3", "v3")]
  {
    ExampleJoined();
    ExampleSegmentsJoin();
  }

  lemma ExampleJoined()
    ensures KeyValuePairs(["k1=v1", "k2=v2"] + ["malformed"] + ["k3=v3"]) == [("k1", "v1"), ("k2", "v2"), ("k3", "v3")]
  {
    ExampleFirstTwo();
    ExampleMalformed();
    ExampleLast();
    KeyValuePairsAppend3(["k1=v1", "k2=v2"], ["malformed"], ["k3=v3"]);
  }

  lemma ExampleSegmentsJoin()
    ensures ["k1=v1", "k2=v2"] + ["malformed"] + ["k3=v3"] == ["k1=v1", "k2=v2", "malformed", "k3=v3"]
  {
  }

  lemma ExampleFirstTwo()
    ensures KeyValuePairs(["k1=v1", "k2=v2"]) == [("k1", "v1"), ("k2", "v2")]
  {
    SegmentsToPairs([("k1", "v1"), ("k2", "v2")], ["k1=v1", "k2=v2"]);
  }

  lemma ExampleMalformed()
    ensures KeyValuePairs(["malformed"]) == []
  {
  }

  lemma ExampleLast()
    ensures KeyValuePairs(["k3=v3"]) == [("k3", "v3")]
  {
    SegmentsToPairs([("k3", "v3")], ["k3=v3"]);
  }

  lemma KeyValuePairsAppend3(a: seq<string>, b: seq<string>, c: seq<string>)
    ensures KeyValuePairs(a + b + c) == KeyValuePairs(a) + KeyValuePairs(b) + KeyValuePairs(c)
  {
    KeyValuePairsAppend(a + b, c);
    KeyValuePairsAppend(a, b);
  }

  /** `a=b=c` gives `a -> "b=c"`; `=v` gives `"" -> "v"`. */
  lemma QueryFirstEqualsExamples()
    ensures QueryPairs(Some("a=b=c")) == [("a", "b=c")]
    ensures QueryPairs(Some("=v")) == [("", "v")]
  {
    SingleQueryPair("a", "b=c");
    assert "a" + "=" + "b=c" == "a=b=c";
    SingleQueryPair("", "v");
    assert "" + "=" + "v" == "=v";
  }

  /** `{status=404, headers={["X-Test"]="1"}, body="nope"}`. */
  lemma ClassifyTableExample()
    ensures Classify(ReturnedTable(ResponseTable(
              Present(404), Present([Entry("X-Test", AsciiBytes("1"))]), Present(AsciiBytes("nope")))))
         == Respond(Response(404, [("X-Test", AsciiBytes("1"))], AsciiBytes("nope")))
  {
    var entries := [Entry("X-Test", AsciiBytes("1"))];
    var t := ResponseTable(Present(404), Present(entries), Present(AsciiBytes("nope")));
    assert ValidHeaderName("X-Test") by {
      assert forall i :: 0 <= i < 6 ==> IsTokenChar("X-Test"[i]);
    }
    assert AllAccepted(entries);
    TableResponseRespond(t);
    assert EntryPairs(entries) == [("X-Test", AsciiBytes("1"))];
  }
}
