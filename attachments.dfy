// The attachment handler: it saves the attachments of a mail that are within the size
// limit and not empty, and reports what it saved, in the order of the input.

module Attachments {
  import opened Common

  /** What the file handler returns for a stored attachment: its category and the path
      it was saved under. */
  datatype Stored = Stored(category: string, path: string)

  /** An attachment as the mail parser hands it over. A key the dictionary lacks is None;
      `content` is the decoded payload (None when decoding raises, empty when there is no
      payload) and `store` what categorising and saving it return (None when either
      raises). */
  datatype Attachment = Attachment(filename: Option<string>, size: Option<int>, content: Option<seq<bv8>>,
                                   contentType: Option<string>, store: Option<Stored>)

  /** The metadata recorded for a saved attachment. */
  datatype Record = Record(originalName: string, savedPath: string, category: string, size: int, mimeType: string)

  /** The record of one attachment, or None when it is skipped: too large, empty, or
      failing on a missing key or a raising call. */
  function Extract(a: Attachment, maxSize: int): Option<Record> {
    if a.size.None? then None
    else if a.size.value > maxSize then None
    else if a.content.None? || a.content.value == [] then None
    else if a.filename.None? || a.contentType.None? || a.store.None? then None
    else Some(Record(a.filename.value, a.store.value.path, a.store.value.category, a.size.value, a.contentType.value))
  }

  /** An attachment is kept exactly when its size is known and at most the limit (a size
      equal to the limit is kept), its content is not empty, and it can be categorised and
      saved; its record then copies name, size and content type from it. */
  lemma ExtractRule(a: Attachment, maxSize: int)
    ensures Extract(a, maxSize).Some? <==>
              && a.size.Some? && a.size.value <= maxSize
              && a.content.Some? && a.content.value != []
              && a.filename.Some? && a.contentType.Some? && a.store.Some?
    ensures Extract(a, maxSize).Some? ==>
              var r := Extract(a, maxSize).value;
              r.originalName == a.filename.value && r.size == a.size.value && r.mimeType == a.contentType.value &&
              r.savedPath == a.store.value.path && r.category == a.store.value.category
  {
  }

  /** The records of all kept attachments, in input order. */
  function ExtractAll(atts: seq<Attachment>, maxSize: int): seq<Record> {
    if |atts| == 0 then []
    else
      var last := Extract(atts[|atts| - 1], maxSize);
      ExtractAll(atts[..|atts| - 1], maxSize) + (if last.Some? then [last.value] else [])
  }

  /** The positions of the kept attachments, in input order. */
  function Kept(atts: seq<Attachment>, maxSize: int): seq<nat> {
    if |atts| == 0 then []
    else Kept(atts[..|atts| - 1], maxSize) + (if Extract(atts[|atts| - 1], maxSize).Some? then [|atts| - 1] else [])
  }

  /** The result is an order-preserving selection of the input: the `k`-th record comes
      from the `k`-th kept position, the positions increase, and every kept attachment has
      its position there; so there are at most as many records as attachments, each
      within the size limit. */
  lemma {:induction false} ExtractAllSelects(atts: seq<Attachment>, maxSize: int)
    ensures |Kept(atts, maxSize)| == |ExtractAll(atts, maxSize)| <= |atts|
    ensures forall k :: 0 <= k < |Kept(atts, maxSize)| ==>
              Kept(atts, maxSize)[k] < |atts| &&
              Extract(atts[Kept(atts, maxSize)[k]], maxSize) == Some(ExtractAll(atts, maxSize)[k])
    ensures forall k, l :: 0 <= k < l < |Kept(atts, maxSize)| ==> Kept(atts, maxSize)[k] < Kept(atts, maxSize)[l]
    ensures forall i :: 0 <= i < |atts| && Extract(atts[i], maxSize).Some? ==> i in Kept(atts, maxSize)
    ensures forall r :: r in ExtractAll(atts, maxSize) ==> r.size <= maxSize
  {
    if |atts| > 0 {
      var init := atts[..|atts| - 1];
      ExtractAllSelects(init, maxSize);
      forall k | 0 <= k < |Kept(init, maxSize)|
        ensures atts[Kept(init, maxSize)[k]] == init[Kept(init, maxSize)[k]]
      {
      }
      forall i | 0 <= i < |atts| - 1 && Extract(atts[i], maxSize).Some?
        ensures i in Kept(atts, maxSize)
      {
        assert init[i] == atts[i];
      }
      forall r | r in ExtractAll(atts, maxSize) ensures r.size <= maxSize {
        var k :| 0 <= k < |ExtractAll(atts, maxSize)| && ExtractAll(atts, maxSize)[k] == r;
        ExtractRule(atts[Kept(atts, maxSize)[k]], maxSize);
      }
    }
  }

  /** A failing attachment affects only itself: the records of a list are the records of
      its parts. */
  lemma {:induction false} ExtractAllAppend(xs: seq<Attachment>, ys: seq<Attachment>, maxSize: int)
    ensures ExtractAll(xs + ys, maxSize) == ExtractAll(xs, maxSize) + ExtractAll(ys, maxSize)
  {
    if |ys| == 0 {
      assert xs + ys == xs;
    } else {
      var ys' := ys[..|ys| - 1];
      ExtractAllAppend(xs, ys', maxSize);
      assert (xs + ys)[..|xs + ys| - 1] == xs + ys';
    }
  }

  /** The handler, with its size limit fixed at construction. */
  class AttachmentHandler {
    const maxSizeBytes: int

    /** The limit is given in megabytes (50 by default) and kept in bytes. */
    constructor (maxSizeMb: int)
      ensures maxSizeBytes == maxSizeMb * 1024 * 1024
    {
      maxSizeBytes := maxSizeMb * 1024 * 1024;
    }

    /** `extract_attachments`: the records of the attachments saved, in input order. */
    method ExtractAttachments(atts: seq<Attachment>) returns (saved: seq<Record>)
      ensures saved == ExtractAll(atts, maxSizeBytes)
    {
      saved := [];
      for i := 0 to |atts|
        invariant saved == ExtractAll(atts[..i], maxSizeBytes)
      {
        assert atts[..i + 1][..i] == atts[..i];
        var a := atts[i];
        if a.size.None? || a.size.value > maxSizeBytes {
          continue;
        }
        if a.content.None? || a.content.value == [] {
          continue;
        }
        if a.filename.None? || a.contentType.None? || a.store.None? {
          continue;
        }
        saved := saved + [Record(a.filename.value, a.store.value.path, a.store.value.category,
                                 a.size.value, a.contentType.value)];
      }
      assert atts[..|atts|] == atts;
    }
  }
}
