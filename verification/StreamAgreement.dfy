/** The completed output of a stream and the output of the one-shot conversion. */
module StreamAgreement {
  import opened Wrappers
  import opened ResponsesModel
  import opened StreamSteps
  import opened StreamSpec
  import opened StreamLog
  import opened StreamTracking
  import OneShot

  function WithPayload(urls: seq<string>): seq<string> {
    if urls == [] then []
    else
      var init := WithPayload(urls[..|urls| - 1]);
      if Base64Of(urls[|urls| - 1]) == "" then init else init + [urls[|urls| - 1]]
  }

  predicate AllHavePayload(urls: seq<string>) {
    forall i | 0 <= i < |urls| :: Base64Of(urls[i]) != ""
  }

  /** No image without a payload stands before one with a payload. */
  predicate NoGap(urls: seq<string>) {
    forall i, j | 0 <= i < j < |urls| :: Base64Of(urls[i]) == "" ==> Base64Of(urls[j]) == ""
  }

  lemma AllHaveSnoc(init: seq<string>, last: string)
    ensures AllHavePayload(init + [last]) <==> AllHavePayload(init) && Base64Of(last) != ""
  {
    var urls := init + [last];
    assert urls[|init|] == last && forall i | 0 <= i < |init| :: init[i] == urls[i];
  }

  lemma NoGapSnoc(init: seq<string>, last: string)
    ensures NoGap(init + [last]) <==> NoGap(init) && (Base64Of(last) != "" ==> AllHavePayload(init))
  {
    var urls := init + [last];
    assert urls[|init|] == last && forall i | 0 <= i < |init| :: init[i] == urls[i];
  }

  lemma {:induction false} PayloadCount(urls: seq<string>)
    ensures |Payloads(urls)| <= |urls|
    ensures |Payloads(urls)| == |urls| <==> AllHavePayload(urls)
  {
    if urls == [] {
    } else {
      var init, last := urls[..|urls| - 1], urls[|urls| - 1];
      PayloadCount(init);
      AllHaveSnoc(init, last);
      assert init + [last] == urls;
    }
  }

  lemma {:induction false} ImagesWithPayload(m: Meta, status: Status, urls: seq<string>)
    ensures OneShot.ImageItems(m.chunkId, status, WithPayload(urls)) == ImageResults(m, Payloads(urls), status)
    ensures |WithPayload(urls)| == |Payloads(urls)|
  {
    if urls == [] {
    } else {
      var init, last := urls[..|urls| - 1], urls[|urls| - 1];
      ImagesWithPayload(m, status, init);
      if Base64Of(last) != "" {
        assert (WithPayload(init) + [last])[..|WithPayload(init)|] == WithPayload(init);
        ResultsSnoc(m, Payloads(init), Base64Of(last), status);
      }
    }
  }

  lemma ResultsSnoc(m: Meta, payloads: seq<string>, payload: string, status: Status)
    ensures ImageResults(m, payloads + [payload], status) ==
            ImageResults(m, payloads, status) + [ImageItem(ImageId(m.chunkId, |payloads|), status, Some(payload))]
  {
  }

  /** The one-shot conversion numbers images by their place in the message, the stream by what it has collected. */
  lemma {:induction false} ImageNumbering(m: Meta, status: Status, urls: seq<string>)
    ensures OneShot.ImageItems(m.chunkId, status, urls) == ImageResults(m, Payloads(urls), status) <==> NoGap(urls)
  {
    if urls == [] {
    } else {
      var init, last := urls[..|urls| - 1], urls[|urls| - 1];
      ImageNumbering(m, status, init);
      PayloadCount(init);
      NoGapSnoc(init, last);
      NoGapIfAll(init);
      assert init + [last] == urls;
      if Base64Of(last) != "" {
        ResultsSnoc(m, Payloads(init), Base64Of(last), status);
        LastImage(m, status, init, Base64Of(last));
      }
    }
  }

  lemma NoGapIfAll(urls: seq<string>)
    ensures AllHavePayload(urls) ==> NoGap(urls)
  {
  }

  lemma LastImage(m: Meta, status: Status, init: seq<string>, payload: string)
    ensures var a := ImageItem(ImageId(m.chunkId, |init|), status, Some(payload));
            var b := ImageItem(ImageId(m.chunkId, |Payloads(init)|), status, Some(payload));
            OneShot.ImageItems(m.chunkId, status, init) + [a] == ImageResults(m, Payloads(init), status) + [b] <==>
            OneShot.ImageItems(m.chunkId, status, init) == ImageResults(m, Payloads(init), status)
            && |init| == |Payloads(init)|
  {
    var x, y := OneShot.ImageItems(m.chunkId, status, init), ImageResults(m, Payloads(init), status);
    var a := ImageItem(ImageId(m.chunkId, |init|), status, Some(payload));
    var b := ImageItem(ImageId(m.chunkId, |Payloads(init)|), status, Some(payload));
    if x + [a] == y + [b] {
      assert (x + [a])[..|x + [a]| - 1] == x && (y + [b])[..|y + [b]| - 1] == y;
      assert (x + [a])[|x + [a]| - 1] == a && (y + [b])[|y + [b]| - 1] == b;
      ImageIdIsInjective(m.chunkId, |init|, |Payloads(init)|);
    }
  }

  lemma CallsAgree(st: State, known: seq<ToolCall>, status: Status)
    requires CallsInPlace(st) && SameCalls(st.data.calls, known)
    ensures CallResults(st.data.calls, status) == OneShot.CallItems(known, status)
  {
  }

  /** The message that the deltas add up to, without the images that have no payload. */
  function Shaped(ops: seq<Op>): Message {
    Assemble(ops).(images := WithPayload(Shown(ops)))
  }

  /** The completed output is what the one-shot conversion makes of all deltas together. */
  lemma OutputAgrees(m: Meta, st: State, ops: seq<Op>, finish: Finish)
    requires Tracks(m, st, ops)
    ensures FinalOutput(m, st.hadReasoning, st.data, Some(finish), StatusOf(finish)) ==
            OneShot.Output(m.chunkId, Shaped(ops), finish)
  {
    CallsAgree(st, CallsOf(Tools(ops)), StatusOf(finish));
    ImagesWithPayload(m, ImageStatusOf(Some(finish)), Shown(ops));
  }

  /** With or without the images that have no payload: the same output, unless one of them leaves a gap. */
  lemma GapsShow(m: Meta, ops: seq<Op>, finish: Finish)
    ensures OneShot.Output(m.chunkId, Shaped(ops), finish) == OneShot.Output(m.chunkId, Assemble(ops), finish) <==>
            NoGap(Shown(ops))
  {
    var status := ImageStatusOf(Some(finish));
    var head := OneShot.Output(m.chunkId, Assemble(ops).(images := []), finish);
    var x, y := OneShot.ImageItems(m.chunkId, status, WithPayload(Shown(ops))), OneShot.ImageItems(m.chunkId, status, Shown(ops));
    ImagesWithPayload(m, status, Shown(ops));
    ImageNumbering(m, status, Shown(ops));
    HeadsAgree(m, Assemble(ops), finish);
    assert x == (head + x)[|head|..] && y == (head + y)[|head|..];
  }

  lemma HeadsAgree(m: Meta, message: Message, finish: Finish)
    ensures forall urls :: OneShot.Output(m.chunkId, message.(images := urls), finish) ==
              OneShot.Output(m.chunkId, message.(images := []), finish)
              + OneShot.ImageItems(m.chunkId, ImageStatusOf(Some(finish)), urls)
  {
  }
}
