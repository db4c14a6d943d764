/**
 * The pipeline's unit of transit: a Blob carries either images with their labels or a
 * list of arbitrary values, and turns itself into a session request that fetches them.
 */
module Blobs {
  import opened Wrappers

  /** The one label value that marks an image with no known class. */
  const MissingLabel := -1

  datatype TensorKind = Computed | Int64Constant(value: int)

  /** A graph tensor, known here by its graph-wide name and, for constants, its value. */
  datatype Tensor = Tensor(name: string, kind: TensorKind)

  /** A keyword argument as Python receives it: a single tensor, or a list of tensors. */
  datatype Arg = One(tensor: Tensor) | Many(tensors: seq<Tensor>)

  /** `prob_list`: a non-list argument becomes a one-element list; a list is kept as is. */
  function ProbList(a: Arg): (r: seq<Tensor>)
    ensures a.One? ==> |r| == 1 && r[0] == a.tensor
    ensures a.Many? ==> r == a.tensors
  {
    match a
    case One(t) => [t]
    case Many(ts) => ts
  }

  datatype Content = ImageLabel | Value

  datatype Blob =
    | ImageLabelBlob(images: seq<Tensor>, labels: seq<Tensor>)
    | ValueBlob(values: seq<Tensor>)
  {
    function Content(): Content {
      if ImageLabelBlob? then ImageLabel else Value
    }
  }

  /** The keyword arguments `images`, `labels` and `values` of the Blob constructor. */
  datatype BlobArgs = BlobArgs(images: Option<Arg>, labels: Option<Arg>, values: Option<Arg>)

  /**
   * One `tf.constant(-1, dtype=tf.int64)` per image; `constName(i)` is the name the graph
   * gives the i-th of these constants.
   */
  function MissingLabels(n: nat, constName: nat -> string): (r: seq<Tensor>)
    ensures |r| == n
    ensures forall i :: 0 <= i < n ==> r[i].kind == Int64Constant(MissingLabel)
  {
    seq(n, i requires 0 <= i < n => Tensor(constName(i), Int64Constant(MissingLabel)))
  }

  /** `Blob(**kwargs)`: exactly one of images and values must be given. */
  function NewBlob(args: BlobArgs, constName: nat -> string): (r: Result<Blob>)
    ensures r.Ok? <==> (args.images.Some? != args.values.Some?)
    ensures r.Err? ==> r.message == "Too many arguments!"
    ensures r.Ok? && args.images.Some? ==>
      && r.value.Content() == ImageLabel
      && r.value.images == ProbList(args.images.value)
      && (args.labels.Some? ==> r.value.labels == ProbList(args.labels.value))
      && (args.labels.None? ==> |r.value.labels| == |r.value.images|)
      && (args.labels.None? ==> forall i :: 0 <= i < |r.value.labels| ==>
            r.value.labels[i].kind == Int64Constant(MissingLabel))
    ensures r.Ok? && args.values.Some? ==>
      r.value.Content() == Value && r.value.values == ProbList(args.values.value)
  {
    if args.images.Some? == args.values.Some? then
      Err("Too many arguments!")
    else if args.images.Some? then
      var images := ProbList(args.images.value);
      var labels := if args.labels.Some? then ProbList(args.labels.value)
                    else MissingLabels(|images|, constName);
      Ok(ImageLabelBlob(images, labels))
    else
      Ok(ValueBlob(ProbList(args.values.value)))
  }

  /** `as_tuple_list`: Python's zip, which stops at the shorter list. */
  function AsTupleList(b: Blob): (r: seq<(Tensor, Tensor)>)
    requires b.ImageLabelBlob?
    ensures |r| == if |b.images| <= |b.labels| then |b.images| else |b.labels|
    ensures forall k :: 0 <= k < |r| ==> r[k] == (b.images[k], b.labels[k])
  {
    var n := if |b.images| <= |b.labels| then |b.images| else |b.labels|;
    seq(n, k requires 0 <= k < n => (b.images[k], b.labels[k]))
  }

  /** The tensors a blob hands to the session: images then labels, or its values. */
  function Fetched(b: Blob): seq<Tensor> {
    match b
    case ImageLabelBlob(images, labels) => images + labels
    case ValueBlob(values) => values
  }

  /**
   * `{value.name: value for value in values}`: every name is a key, and a name that occurs
   * more than once keeps the last tensor carrying it.
   */
  function FetchDict(vs: seq<Tensor>): (m: map<string, Tensor>)
    ensures forall t :: t in vs ==> t.name in m
    ensures forall k :: k in m ==> m[k] in vs && m[k].name == k
    ensures forall i :: 0 <= i < |vs| && (forall j :: i < j < |vs| ==> vs[j].name != vs[i].name) ==>
      m[vs[i].name] == vs[i]
  {
    if vs == [] then map[]
    else
      var front, last := vs[..|vs| - 1], vs[|vs| - 1];
      assert vs == front + [last];
      FetchDict(front)[last.name := last]
  }

  /** A session request: values fed to placeholders (by name) and tensors to fetch (by key). */
  datatype Request = Request(feed: map<string, int>, fetch: map<string, Tensor>)

  /** `Blob.kwargs`: feeds nothing and fetches every tensor of the blob under its name. */
  function Kwargs(b: Blob): (r: Request)
    ensures r.feed == map[]
    ensures b.ImageLabelBlob? ==> forall t :: t in b.images || t in b.labels ==> t.name in r.fetch
    ensures b.ValueBlob? ==> forall t :: t in b.values ==> t.name in r.fetch
    ensures forall k :: k in r.fetch ==> r.fetch[k].name == k && r.fetch[k] in Fetched(b)
  {
    Request(map[], FetchDict(Fetched(b)))
  }

  /** When the graph names are distinct (as TensorFlow makes them), each tensor is fetched. */
  lemma KwargsFetchesEachTensor(b: Blob)
    requires forall i, j :: 0 <= i < j < |Fetched(b)| ==> Fetched(b)[i].name != Fetched(b)[j].name
    ensures forall t :: t in Fetched(b) ==> t.name in Kwargs(b).fetch && Kwargs(b).fetch[t.name] == t
  {
    var vs := Fetched(b);
    forall t | t in vs ensures Kwargs(b).fetch[t.name] == t {
      var i :| 0 <= i < |vs| && vs[i] == t;
      assert forall j :: i < j < |vs| ==> vs[j].name != vs[i].name;
    }
  }
}
