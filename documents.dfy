/** The "documents" collection as the handlers see it: records keyed by file
    name, written by `/upload` and scanned by `/search`. */
module Documents {
  import opened Wrappers
  import opened Text
  import opened Upload

  /** A stored document: its file name, the public URL of its blob, and the
      text extracted from it. */
  datatype Record = Record(filename: string, url: string, content: string)

  /** One `/search` result. */
  datatype Hit = Hit(filename: string, url: string, snippet: string)

  /** The body of a successful `/upload`. */
  datatype UploadReceipt = UploadReceipt(message: string, filename: string, url: string, preview: string)

  const UploadMessage := "File uploaded and processed successfully"
  const MissingQuery := "Query parameter 'q' is required."

  /** The records for `keys`, in that order. */
  function Enumerate(docs: map<string, Record>, keys: seq<string>): (r: seq<Record>)
    requires forall k :: k in keys ==> k in docs
    ensures |r| == |keys|
    ensures forall i :: 0 <= i < |keys| ==> r[i] == docs[keys[i]]
  {
    seq(|keys|, i requires 0 <= i < |keys| => docs[keys[i]])
  }

  /** The search test: the lower-cased content contains the lower-cased
      query (the query is not stripped). */
  predicate Matches(rec: Record, query: string)
  {
    Contains(ToLower(rec.content), ToLower(query))
  }

  function HitOf(rec: Record): Hit
  {
    Hit(rec.filename, rec.url, Preview(rec.content))
  }

  /** The results of a search over `recs`, in their order. */
  function Matching(recs: seq<Record>, query: string): seq<Hit>
  {
    if |recs| == 0 then []
    else
      var prev := Matching(recs[..|recs| - 1], query);
      if Matches(recs[|recs| - 1], query) then prev + [HitOf(recs[|recs| - 1])] else prev
  }

  /** Every result comes from a matching record. */
  lemma {:induction false} MatchingSound(recs: seq<Record>, query: string, h: Hit)
    requires h in Matching(recs, query)
    ensures exists rec :: rec in recs && Matches(rec, query) && h == HitOf(rec)
  {
    var last := recs[|recs| - 1];
    var init := recs[..|recs| - 1];
    if h in Matching(init, query) {
      MatchingSound(init, query, h);
      var rec :| rec in init && Matches(rec, query) && h == HitOf(rec);
      assert rec in recs;
    } else {
      assert last in recs;
    }
  }

  /** Every matching record gives a result. */
  lemma {:induction false} MatchingComplete(recs: seq<Record>, query: string, rec: Record)
    requires rec in recs && Matches(rec, query)
    ensures HitOf(rec) in Matching(recs, query)
  {
    var init := recs[..|recs| - 1];
    if rec != recs[|recs| - 1] {
      assert rec in init by {
        var i :| 0 <= i < |recs| && recs[i] == rec;
        assert init[i] == rec;
      }
      MatchingComplete(init, query, rec);
    }
  }

  /** Results keep the enumeration order: searching two runs of records one
      after the other gives the first run's results, then the second's. */
  lemma {:induction false} MatchingConcat(a: seq<Record>, b: seq<Record>, query: string)
    ensures Matching(a + b, query) == Matching(a, query) + Matching(b, query)
    decreases |b|
  {
    if |b| > 0 {
      var init := b[..|b| - 1];
      assert (a + b)[..|a + b| - 1] == a + init;
      MatchingConcat(a, init, query);
    } else {
      assert a + b == a;
    }
  }

  /** A document store. `docs` maps a file name to its record; `order` is
      the order in which the store enumerates its records. */
  class DocumentStore {
    var docs: map<string, Record>
    var order: seq<string>

    /** The enumeration lists every key exactly once, and every record is
        stored under its own file name. */
    ghost predicate Valid()
      reads this
    {
      && (forall k :: k in docs <==> k in order)
      && (forall i, j :: 0 <= i < j < |order| ==> order[i] != order[j])
      && (forall k :: k in docs ==> docs[k].filename == k)
    }

    constructor ()
      ensures Valid() && docs == map[] && order == []
    {
      docs := map[];
      order := [];
    }

    /** The records in enumeration order. */
    function Stream(): (r: seq<Record>)
      reads this
      requires Valid()
      ensures |r| == |docs|
      ensures forall rec :: rec in r <==> rec in docs.Values
    {
      DistinctKeysCount();
      Enumerate(docs, order)
    }

    lemma DistinctKeysCount()
      requires Valid()
      ensures |docs| == |order|
    {
      assert docs.Keys == set k | k in order;
      DistinctSize(order);
    }

    /** `/upload`: validate the request, then store the record for the file
        (the last upload of a name wins) and answer with a preview of its
        text. A rejected request leaves the store unchanged. */
    method Upload(part: Option<FilePart>, url: string, pages: seq<Option<string>>)
      returns (r: Result<UploadReceipt, HttpError>)
      requires Valid()
      modifies this
      ensures Valid()
      ensures Validate(part).Failure? ==>
                r == Failure(Validate(part).error) && docs == old(docs) && order == old(order)
      ensures Validate(part).Success? ==>
                var name, text := Validate(part).value, ExtractText(pages);
                && docs == old(docs)[name := Record(name, url, text)]
                && r == Success(UploadReceipt(UploadMessage, name, url, Preview(text)))
                && r.value.preview <= docs[name].content
                && order == (if name in old(docs) then old(order) else old(order) + [name])
    {
      var checked := Validate(part);
      if checked.Failure? {
        return Failure(checked.error);
      }
      var name := checked.value;
      var text := ExtractText(pages);
      if name !in docs {
        order := order + [name];
      }
      docs := docs[name := Record(name, url, text)];
      r := Success(UploadReceipt(UploadMessage, name, url, Preview(text)));
    }

    /** `/search`: a blank query is refused; otherwise every stored record
        whose content contains the query, ignoring case, gives a result, in
        enumeration order. */
    method Search(query: string) returns (r: Result<seq<Hit>, HttpError>)
      requires Valid()
      ensures IsBlank(query) ==> r == Failure(ClientError(MissingQuery))
      ensures !IsBlank(query) ==> r == Success(Matching(Stream(), query))
      ensures !IsBlank(query) && docs == map[] ==> r == Success([])
    {
      if IsBlank(query) {
        return Failure(ClientError(MissingQuery));
      }
      var stream := Stream();
      var results := [];
      for i := 0 to |stream|
        invariant results == Matching(stream[..i], query)
      {
        var data := stream[i];
        assert stream[..i + 1][..i] == stream[..i];
        if Contains(ToLower(data.content), ToLower(query)) {
          results := results + [Hit(data.filename, data.url, Preview(data.content))];
        }
      }
      assert stream[..|stream|] == stream;
      r := Success(results);
    }
  }

  /** A list without repeats has as many elements as its set. */
  lemma {:induction false} DistinctSize(s: seq<string>)
    requires forall i, j :: 0 <= i < j < |s| ==> s[i] != s[j]
    ensures |set k | k in s| == |s|
  {
    if |s| > 0 {
      var init := s[..|s| - 1];
      DistinctSize(init);
      assert (set k | k in s) == (set k | k in init) + {s[|s| - 1]};
    }
  }
}
