/** A batch that fails where each of its requests alone succeeds. */
module BatchWitness {
  import opened Wrappers
  import opened Tensors
  import opened BatchCompatibility
  import opened DynamicBatcher
  import opened SplitTheorems
  import opened BatchMeaning

  /** An executor with one output that has no elements: trailing extent 0. */
  function EmptyRows(): RowExecutor {
    RowExecutor(_ => None, _ => [OutputSpec("y", FP32, [0])], (_, _, _) => [])
  }

  function OneByte(): Request {
    Request([Tensor("x", UINT8, [1], [7], [])], [])
  }

  lemma OneByteFormed()
    ensures WellFormed(OneByte()) && Formed([OneByte(), OneByte()]) && Sum(SizesOf([OneByte(), OneByte()])) == 2
  {
    var r := OneByte();
    assert r.inputs[0].shape[1..] == [];
    assert Span(1, 1) == 1;
    assert WellFormed(r);
    assert r.inputs[1..] == [];
    assert SizesOf([r, r]) == [1, 1] && [1, 1][..1] == [1] && [1][..0] == [];
    CompatibleIsSameKind(r, r);
  }

  /** The row-wise executor answers either request alone, and both fail when they are run together. */
  lemma ZeroExtentFails(k: nat) returns (e: RowExecutor, requests: seq<Request>)
    requires k < 2
    ensures WellBehaved(e) && Formed(requests) && |requests| == 2 && MergeSpec(requests).Merged? && |MergeSpec(requests).sizes| == 2
    ensures WellFormed(requests[k]) && Infer(e, requests[k]).ok
    ensures WellFormed(MergeSpec(requests).request)
    ensures !SplitOne(Infer(e, MergeSpec(requests).request), MergeSpec(requests).sizes, k).ok
  {
    e, requests := EmptyRows(), [OneByte(), OneByte()];
    OneByteFormed();
    FormedMerges(requests);
    var spec := OutputSpec("y", FP32, [0]);
    assert e.specs(QuestionOf(requests[0])) == [spec];
    assert Product(spec.tail) == 0 && SpecWidth(spec) == 0;
    SplitAnswers(e, requests, k);
    assert spec in e.specs(QuestionOf(requests[0])) && !Splittable(spec);
  }
}
