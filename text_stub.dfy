/**
  `parse_str` of the text-stub library: a TBD (text-based stub) file is a
  YAML stream whose documents carry their TBD version in the tag of their
  `---` start marker.  The YAML loader and the per-version deserialisers are
  outside the model: the loader's outcome is an input (the list of loaded
  documents, each as the text it is emitted back to, or a scan error) and the
  deserialiser is a function from a version and a document text to a body or
  an error message.
*/
module TextStub {
  import opened Wrappers
  import opened TextLines

  datatype TbdVersion = V1 | V2 | V3 | V4

  /** A parsed record: the version its document was read as, and the deserialised body. */
  datatype TbdRecord<B> = TbdRecord(version: TbdVersion, body: B)

  datatype ParseError =
    | YamlError(scan: string)
    | DocumentCountMismatch
    | Serde(message: string)

  /** A run of `parse_str` in a build with overflow checks: it returns, or it panics. */
  datatype Outcome<R> = Returned(result: R) | Panicked(message: string)

  const DocumentStart: string := "---"
  const V2DocumentStart: string := "--- !tapi-tbd-v2"
  const V3DocumentStart: string := "--- !tapi-tbd-v3"
  const V4DocumentStart: string := "--- !tapi-tbd"

  // ---------------------------------------------------------------------------
  // Marker lines

  predicate IsMarker(line: string)
  {
    DocumentStart <= line
  }

  /**
    The version of a marker line: the most specific tag first, because the
    version 4 tag is a prefix of the version 2 and 3 tags; an untagged marker
    is version 1.
  */
  function Classify(line: string): (v: TbdVersion)
    ensures v == V2 <==> V2DocumentStart <= line
    ensures v == V3 <==> V3DocumentStart <= line
    ensures v == V4 <==> V4DocumentStart <= line && !(V2DocumentStart <= line) && !(V3DocumentStart <= line)
    ensures v == V1 <==> !(V4DocumentStart <= line)
  {
    TagsNested(line);
    if V2DocumentStart <= line then V2
    else if V3DocumentStart <= line then V3
    else if V4DocumentStart <= line then V4
    else V1
  }

  /** The version 2 and 3 tags extend the version 4 tag and exclude each other. */
  lemma TagsNested(line: string)
    ensures V2DocumentStart <= line ==> V4DocumentStart <= line
    ensures V3DocumentStart <= line ==> V4DocumentStart <= line
    ensures !(V2DocumentStart <= line && V3DocumentStart <= line)
    ensures V4DocumentStart <= line ==> IsMarker(line)
  {
    if V2DocumentStart <= line {
      assert V4DocumentStart == V2DocumentStart[..|V4DocumentStart|];
      assert line[15] == '2';
      assert !(V3DocumentStart <= line);
    }
    if V3DocumentStart <= line {
      assert V4DocumentStart == V3DocumentStart[..|V4DocumentStart|];
    }
    if V4DocumentStart <= line {
      assert DocumentStart == V4DocumentStart[..|DocumentStart|];
    }
  }

  /** The positions of the marker lines, in increasing order. */
  function MarkerIndices(lines: seq<string>): (idx: seq<nat>)
    ensures forall k :: 0 <= k < |idx| ==> idx[k] < |lines| && IsMarker(lines[idx[k]])
    ensures forall k, l :: 0 <= k < l < |idx| ==> idx[k] < idx[l]
    ensures forall i :: 0 <= i < |lines| && IsMarker(lines[i]) ==> i in idx
  {
    if lines == [] then []
    else
      var n := |lines| - 1;
      MarkerIndices(lines[..n]) + (if IsMarker(lines[n]) then [n] else [])
  }

  /** The versions of the marker lines, in line order. */
  function MarkerVersions(lines: seq<string>): seq<TbdVersion>
  {
    var idx := MarkerIndices(lines);
    seq(|idx|, k requires 0 <= k < |idx| => Classify(lines[idx[k]]))
  }

  /** One more line adds its version exactly when it is a marker. */
  lemma MarkerVersionsSnoc(lines: seq<string>, line: string)
    ensures MarkerVersions(lines + [line]) ==
              MarkerVersions(lines) + (if IsMarker(line) then [Classify(line)] else [])
  {
    var all := lines + [line];
    assert all[..|lines|] == lines;
    assert MarkerIndices(all) == MarkerIndices(lines) + (if IsMarker(line) then [|lines|] else []);
  }

  /**
    The scan of `parse_str`: one version per line of `data` that starts with
    `---`, in line order.
  */
  method ScanMarkers(data: string) returns (versions: seq<TbdVersion>)
    ensures versions == MarkerVersions(Lines(data))
  {
    var lines := Lines(data);
    versions := [];
    for i := 0 to |lines|
      invariant versions == MarkerVersions(lines[..i])
    {
      MarkerVersionsSnoc(lines[..i], lines[i]);
      assert lines[..i + 1] == lines[..i] + [lines[i]];
      if IsMarker(lines[i]) {
        versions := versions + [Classify(lines[i])];
      }
    }
    assert lines[..|lines|] == lines;
  }

  // ---------------------------------------------------------------------------
  // Count reconciliation

  /**
    The versions as written: `docs - 1` is computed on an unsigned length and
    panics for an empty stream before any comparison is made.
  */
  function ReconcileAsWritten(versions: seq<TbdVersion>, docs: nat): (o: Outcome<Result<seq<TbdVersion>, ParseError>>)
    ensures o.Panicked? <==> docs == 0
  {
    if docs == 0 then Panicked("attempt to subtract with overflow")
    else if |versions| == docs - 1 then Returned(Success([V1] + versions))
    else if |versions| != docs then Returned(Failure(DocumentCountMismatch))
    else Returned(Success(versions))
  }

  /**
    The versions paired with `docs` documents: one fewer marker than
    documents means the first document had no marker and is version 1; any
    other difference is a mismatch; an empty stream with no markers has no
    versions.
  */
  function Reconcile(versions: seq<TbdVersion>, docs: nat): (r: Result<seq<TbdVersion>, ParseError>)
    ensures r.Success? <==> |versions| == docs || |versions| + 1 == docs
    ensures r.Success? ==> |r.value| == docs
    ensures |versions| + 1 == docs ==> r == Success([V1] + versions)
    ensures |versions| == docs ==> r == Success(versions)
    ensures r.Failure? ==> r.error == DocumentCountMismatch
  {
    if docs > 0 && |versions| == docs - 1 then Success([V1] + versions)
    else if |versions| != docs then Failure(DocumentCountMismatch)
    else Success(versions)
  }

  /** Wherever the version as written returns, it agrees with `Reconcile`. */
  lemma ReconcileAgrees(versions: seq<TbdVersion>, docs: nat)
    requires docs > 0
    ensures ReconcileAsWritten(versions, docs) == Returned(Reconcile(versions, docs))
  {
  }

  /** An empty stream, as the empty text loads: the version as written panics, `Reconcile` returns no versions. */
  lemma EmptyStreamPanics()
    ensures MarkerVersions(Lines("")) == []
    ensures ReconcileAsWritten(MarkerVersions(Lines("")), 0).Panicked?
    ensures Reconcile(MarkerVersions(Lines("")), 0) == Success([])
  {
  }

  // ---------------------------------------------------------------------------
  // Pairing documents with versions

  /**
    Each document deserialised as its version, in order; the first failure
    aborts with its error.
  */
  function Decode<B>(versions: seq<TbdVersion>, docs: seq<string>,
                     deserialize: (TbdVersion, string) -> Result<B, string>): (r: Result<seq<TbdRecord<B>>, ParseError>)
    requires |versions| == |docs|
    ensures r.Success? <==> forall i :: 0 <= i < |docs| ==> deserialize(versions[i], docs[i]).Success?
    ensures r.Success? ==> |r.value| == |docs|
    ensures r.Success? ==> forall i :: 0 <= i < |docs| ==>
              r.value[i] == TbdRecord(versions[i], deserialize(versions[i], docs[i]).value)
    ensures r.Failure? ==> exists i :: 0 <= i < |docs| && FirstFailureAt(versions, docs, deserialize, i) &&
                                     r.error == Serde(deserialize(versions[i], docs[i]).error)
  {
    if docs == [] then Success([])
    else
      match deserialize(versions[0], docs[0])
      case Failure(e) =>
        assert FirstFailureAt(versions, docs, deserialize, 0);
        Failure(Serde(e))
      case Success(body) =>
        var rest := Decode(versions[1..], docs[1..], deserialize);
        if rest.Failure? then
          ShiftFirstFailure(versions, docs, deserialize);
          rest
        else
          Success([TbdRecord(versions[0], body)] + rest.value)
  }

  /** Document `i` is the first whose deserialisation fails. */
  predicate FirstFailureAt<B>(versions: seq<TbdVersion>, docs: seq<string>,
                              deserialize: (TbdVersion, string) -> Result<B, string>, i: nat)
    requires |versions| == |docs|
  {
    && i < |docs|
    && deserialize(versions[i], docs[i]).Failure?
    && forall j :: 0 <= j < i ==> deserialize(versions[j], docs[j]).Success?
  }

  /** A first failure in the tail, after a successful head, is a first failure of the whole. */
  lemma ShiftFirstFailure<B>(versions: seq<TbdVersion>, docs: seq<string>,
                             deserialize: (TbdVersion, string) -> Result<B, string>)
    requires |versions| == |docs| > 0
    requires deserialize(versions[0], docs[0]).Success?
    ensures forall i: nat :: FirstFailureAt(versions[1..], docs[1..], deserialize, i) ==>
                        FirstFailureAt(versions, docs, deserialize, i + 1)
  {
    forall i: nat | FirstFailureAt(versions[1..], docs[1..], deserialize, i)
      ensures FirstFailureAt(versions, docs, deserialize, i + 1)
    {
      forall j | 0 <= j < i + 1
        ensures deserialize(versions[j], docs[j]).Success?
      {
        if j > 0 {
          assert versions[j] == versions[1..][j - 1] && docs[j] == docs[1..][j - 1];
        }
      }
    }
  }

  /** There is at most one first failure. */
  lemma FirstFailureUnique<B>(versions: seq<TbdVersion>, docs: seq<string>,
                              deserialize: (TbdVersion, string) -> Result<B, string>, i: nat, j: nat)
    requires |versions| == |docs|
    requires FirstFailureAt(versions, docs, deserialize, i) && FirstFailureAt(versions, docs, deserialize, j)
    ensures i == j
  {
  }

  // ---------------------------------------------------------------------------
  // parse_str

  /** What `parse_str` returns, composed from the scan, the reconciliation and the pairing. */
  function Parse<B>(data: string, loaded: Result<seq<string>, string>,
                    deserialize: (TbdVersion, string) -> Result<B, string>): Result<seq<TbdRecord<B>>, ParseError>
  {
    match loaded
    case Failure(e) => Failure(YamlError(e))
    case Success(docs) =>
      match Reconcile(MarkerVersions(Lines(data)), |docs|)
      case Failure(e) => Failure(e)
      case Success(versions) => Decode(versions, docs, deserialize)
  }

  /** The pairing loop of `parse_str`: record by record, stopping at the first deserialisation error. */
  method DecodeDocuments<B>(versions: seq<TbdVersion>, docs: seq<string>,
                            deserialize: (TbdVersion, string) -> Result<B, string>)
    returns (r: Result<seq<TbdRecord<B>>, ParseError>)
    requires |versions| == |docs|
    ensures r == Decode(versions, docs, deserialize)
  {
    var records: seq<TbdRecord<B>> := [];
    for index := 0 to |docs|
      invariant |records| == index
      invariant forall j :: 0 <= j < index ==> deserialize(versions[j], docs[j]).Success?
      invariant forall j :: 0 <= j < index ==>
                  records[j] == TbdRecord(versions[j], deserialize(versions[j], docs[j]).value)
    {
      var body := deserialize(versions[index], docs[index]);
      if body.Failure? {
        assert FirstFailureAt(versions, docs, deserialize, index);
        forall i: nat | FirstFailureAt(versions, docs, deserialize, i)
          ensures i == index
        {
          FirstFailureUnique(versions, docs, deserialize, i, index);
        }
        return Failure(Serde(body.error));
      }
      records := records + [TbdRecord(versions[index], body.value)];
    }
    ghost var d := Decode(versions, docs, deserialize);
    assert d.Success? && |d.value| == |records|;
    assert d.value == records;
    return Success(records);
  }

  /**
    `parse_str`, with the count check corrected for an empty stream: the YAML
    scan error, the marker scan, the version 1 insertion at the front, and
    the pairing of documents with versions.
  */
  method ParseStr<B>(data: string, loaded: Result<seq<string>, string>,
                     deserialize: (TbdVersion, string) -> Result<B, string>)
    returns (r: Result<seq<TbdRecord<B>>, ParseError>)
    ensures r == Parse(data, loaded, deserialize)
  {
    if loaded.Failure? {
      return Failure(YamlError(loaded.error));
    }
    var docs := loaded.value;
    var versions := ScanMarkers(data);
    if |docs| > 0 && |versions| == |docs| - 1 {
      versions := [V1] + versions;
    } else if |versions| != |docs| {
      return Failure(DocumentCountMismatch);
    }
    r := DecodeDocuments(versions, docs, deserialize);
  }

  /** A successful parse has one record per loaded document, each with the version its marker gave. */
  lemma ParseSucceeds<B>(data: string, docs: seq<string>,
                         deserialize: (TbdVersion, string) -> Result<B, string>)
    requires Parse(data, Success(docs), deserialize).Success?
    ensures |Parse(data, Success(docs), deserialize).value| == |docs|
    ensures var versions := MarkerVersions(Lines(data));
            var records := Parse(data, Success(docs), deserialize).value;
            if |versions| + 1 == |docs| then records[0].version == V1 &&
              forall i :: 1 <= i < |docs| ==> records[i].version == versions[i - 1]
            else forall i :: 0 <= i < |docs| ==> records[i].version == versions[i]
  {
  }
}
