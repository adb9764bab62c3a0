/**
 * The server's image classification through the Vision API: the request is
 * shaped by whether the input is a URL, and of the labels returned only the
 * second half is kept, as plain descriptions. The HTTP post is a parameter.
 */
module VisionService {
  import opened Wrappers
  import opened Text

  /** The number of labels the request asks for. */
  const MaxResults: nat := 10

  datatype Label = Label(description: string)

  datatype AnnotateResponse = AnnotateResponse(labelAnnotations: Option<seq<Label>>)

  datatype VisionResponse = VisionResponse(statusCode: int, hasError: bool, responses: seq<AnnotateResponse>)

  /**
   * The `image` part of the request: a remote URI, or the local file at a
   * path, which is read and sent base64-encoded.
   */
  datatype ImageRequest = ImageUri(uri: string) | Content(path: string)

  datatype LabelRequest = LabelRequest(image: ImageRequest, maxResults: nat)

  datatype VisionError = MissingApiKey | VisionApiError | NoResponses

  /** An input starting with "http" is sent by URI, anything else as file content. */
  function ImageRequestFor(input: string): (req: ImageRequest)
    ensures req.ImageUri? <==> StartsWith(input, "http")
    ensures req.ImageUri? ==> req.uri == input
    ensures req.Content? ==> req.path == input
  {
    if StartsWith(input, "http") then ImageUri(input) else Content(input)
  }

  /** `[label['description'] for label in labels]`. */
  function Descriptions(labels: seq<Label>): (ds: seq<string>)
    ensures |ds| == |labels|
    ensures forall i :: 0 <= i < |labels| ==> ds[i] == labels[i].description
  {
    if labels == [] then [] else [labels[0].description] + Descriptions(labels[1..])
  }

  /** The descriptions of `labels[len(labels) // 2:]`. */
  function SecondHalf(labels: seq<Label>): (ds: seq<string>)
    ensures |ds| == |labels| - |labels| / 2
    ensures forall i :: 0 <= i < |ds| ==> ds[i] == labels[|labels| / 2 + i].description
  {
    Descriptions(labels[|labels| / 2..])
  }

  /**
   * Projecting then slicing gives the same as slicing then projecting: the
   * result is the suffix of all descriptions from n/2 on, in label order.
   */
  lemma {:induction false} SecondHalfIsSliceOfDescriptions(labels: seq<Label>)
    ensures SecondHalf(labels) == Descriptions(labels)[|labels| / 2..]
  {
    var ds := SecondHalf(labels);
    var all := Descriptions(labels);
    assert |ds| == |all[|labels| / 2..]|;
    forall i | 0 <= i < |ds| ensures ds[i] == all[|labels| / 2..][i] {
    }
  }

  /** At least half the labels are kept and never more than all of them; nothing is kept only when there was nothing. */
  lemma SecondHalfBounds(labels: seq<Label>)
    ensures |labels| / 2 <= |SecondHalf(labels)| <= |labels|
    ensures SecondHalf(labels) == [] <==> labels == []
  {
  }

  /** A lone label is kept. */
  lemma SecondHalfOfOne(l: Label)
    ensures SecondHalf([l]) == [l.description]
  {
  }

  /**
   * `classify_image_with_vision_api`: the key check, the request, the error
   * checks and the label selection. `post` stands for the HTTP call.
   */
  function Classify(apiKey: Option<string>, input: string, post: LabelRequest -> VisionResponse): (r: Result<seq<string>, VisionError>)
    ensures (apiKey.None? || apiKey.value == "") ==> r == Failure(MissingApiKey)
    ensures r.Failure? <==>
      apiKey.None? || apiKey.value == "" ||
      post(LabelRequest(ImageRequestFor(input), MaxResults)).statusCode != 200 ||
      post(LabelRequest(ImageRequestFor(input), MaxResults)).hasError ||
      post(LabelRequest(ImageRequestFor(input), MaxResults)).responses == []
    ensures r.Success? ==>
      var labels := post(LabelRequest(ImageRequestFor(input), MaxResults)).responses[0].labelAnnotations.GetOr([]);
      r.value == SecondHalf(labels)
  {
    if apiKey.None? || apiKey.value == "" then Failure(MissingApiKey)
    else
      var response := post(LabelRequest(ImageRequestFor(input), MaxResults));
      if response.statusCode != 200 || response.hasError then Failure(VisionApiError)
      else if response.responses == [] then Failure(NoResponses)
      else Success(SecondHalf(response.responses[0].labelAnnotations.GetOr([])))
  }

  /** A response without `labelAnnotations` classifies as no labels at all. */
  lemma MissingLabelsGiveNothing(apiKey: Option<string>, input: string, post: LabelRequest -> VisionResponse)
    requires apiKey.Some? && apiKey.value != ""
    requires post(LabelRequest(ImageRequestFor(input), MaxResults)).statusCode == 200
    requires !post(LabelRequest(ImageRequestFor(input), MaxResults)).hasError
    requires |post(LabelRequest(ImageRequestFor(input), MaxResults)).responses| > 0
    requires post(LabelRequest(ImageRequestFor(input), MaxResults)).responses[0].labelAnnotations.None?
    ensures Classify(apiKey, input, post) == Success([])
  {
  }
}
