/** What a controller method receives and what it hands back: the request
    parameters, the HTTP response, and the writes and mails it issues to the
    document store and the mailer. Reads from collaborators are inputs of the
    operations; writes and mails are outputs, so "nothing is written" is
    `writes == []`. */
module Http {
  import opened PhpValues

  /** An uploaded file as `$_FILES` describes it. */
  datatype UploadedFile = UploadedFile(name: string, tmpName: string)

  /** The request: `params` are the merged request parameters `$this->param`
      reads, `query` the names present in the query string (`isset($_GET[..])`),
      `files` the multipart uploads (`$_FILES`). */
  datatype Request = Request(params: map<string, Value>, query: set<string>, files: map<string, UploadedFile>)

  /** `$this->param($name, $default)`: the parameter, or the default when it is
      absent or null. */
  function Param(req: Request, name: string, default: Value): (v: Value)
    ensures name in req.params && req.params[name] != Null ==> v == req.params[name]
    ensures (name !in req.params || req.params[name] == Null) ==> v == default
  {
    if name in req.params && req.params[name] != Null then req.params[name] else default
  }

  /** The JSON body of `$this->stop($body, $status)`. */
  datatype Body = Error(message: string) | Warning(message: string) | NoBody

  datatype Response =
    | Stop(status: int, body: Body)   // `$this->stop(...)`
    | Ok(value: Value)                // the value the method returns, JSON-encoded
    | Thrown                          // an exception escapes (a token that does not decode)

  /** A call that changes the document store. */
  datatype Write =
    | Save(collection: string, doc: Value)
    | Remove(collection: string, filter: Value)

  /** `$this->app->mailer->mail($to, $subject, $body, ["alt_body" => $alt])`. */
  datatype Mail = Mail(to: Value, subject: string, body: string, altBody: string)

  datatype Outcome = Outcome(response: Response, writes: seq<Write>, mails: seq<Mail>)

  /** A response with no side effect. */
  function Reply(r: Response): Outcome {
    Outcome(r, [], [])
  }

  function Fail(status: int, message: string): Outcome {
    Reply(Stop(status, Error(message)))
  }

  /** `findOne($collection, [$field => $value])` over the documents of a
      collection in their natural order: the first document whose `field`
      equals `value`, or null. */
  function FindOne(docs: seq<Value>, field: string, value: Value): (r: Value)
    ensures r == Null || r in docs
    ensures r != Null ==> Get(r, field) == value
    ensures r != Null ==> exists i :: 0 <= i < |docs| && docs[i] == r &&
                                      forall j :: 0 <= j < i ==> docs[j] == Null || Get(docs[j], field) != value
    ensures r == Null ==> forall d :: d in docs ==> Get(d, field) != value || d == Null
  {
    if docs == [] then Null
    else if docs[0] != Null && Get(docs[0], field) == value then docs[0]
    else
      var r := FindOne(docs[1..], field, value);
      if r != Null then
        ghost var i' :| 0 <= i' < |docs[1..]| && docs[1..][i'] == r &&
          forall j :: 0 <= j < i' ==> docs[1..][j] == Null || Get(docs[1..][j], field) != value;
        assert docs[i' + 1] == r;
        assert forall j :: 1 <= j < i' + 1 ==> docs[j] == docs[1..][j - 1];
        r
      else
        assert forall d :: d in docs ==> d == docs[0] || d in docs[1..];
        Null
  }

  /** The store's `save` as the model assumes it: a document replaces the
      first stored document with the same `_id`, and is appended when there
      is none. */
  function Upsert(docs: seq<Value>, doc: Value): seq<Value> {
    if docs == [] then [doc]
    else if docs[0] != Null && Get(docs[0], "_id") == Get(doc, "_id") then [doc] + docs[1..]
    else [docs[0]] + Upsert(docs[1..], doc)
  }

  /** A saved document is what a lookup by its `_id` then finds. */
  lemma {:induction false} FindOneAfterUpsert(docs: seq<Value>, doc: Value)
    requires doc != Null
    ensures FindOne(Upsert(docs, doc), "_id", Get(doc, "_id")) == doc
  {
    if docs != [] && !(docs[0] != Null && Get(docs[0], "_id") == Get(doc, "_id")) {
      var rest := Upsert(docs[1..], doc);
      FindOneAfterUpsert(docs[1..], doc);
      assert ([docs[0]] + rest)[1..] == rest;
    }
  }

  /** The `total` rule of paginated listings: the length of the page read when
      neither `skip` nor `limit` is given, a separate count otherwise. */
  function PageTotal(skip: Value, limit: Value, returned: nat, counted: nat): nat {
    if !Truthy(skip) && !Truthy(limit) then returned else counted
  }
}
