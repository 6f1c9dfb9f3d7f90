/** The social-post page: generate a post, download it as Markdown, and
    fetch images for it. Each handler is one atomic transition; the reply
    of the request it awaits is a parameter. */
module Post {
  import opened Common
  import opened Text

  datatype PostReply = PostOk(message: string) | PostNotOk | PostUnreachable

  /** The shapes the image endpoint's `message` may take. */
  datatype ImageReply =
    | ImagesNotOk
    | ImagesUnreachable
    | ImageList(urls: seq<string>)
    | ImageText(text: string)
    | ImageOther

  const SubmitFailed := "Error processing your request"
  const GeneratePostFirst := "Please generate a post first."
  const ImagesFailed := "An error occurred while fetching images. Please try again."

  /** The characters `/[^a-z0-9]/gi` does not match. */
  predicate IsAsciiAlnum(c: char) {
    ('a' <= c <= 'z') || ('A' <= c <= 'Z') || ('0' <= c <= '9')
  }

  /** `s.replace(/[^a-z0-9]/gi, '_')` */
  function MaskNonAlnum(s: string): (r: string)
    ensures |r| == |s|
    ensures forall i :: 0 <= i < |s| ==> r[i] == if IsAsciiAlnum(s[i]) then s[i] else '_'
  {
    if s == [] then [] else [if IsAsciiAlnum(s[0]) then s[0] else '_'] + MaskNonAlnum(s[1..])
  }

  /** `userInput.slice(0, 20)` with every non-alphanumeric character replaced:
      the first (at most) 20 characters, each kept when it is an ASCII letter
      or digit and '_' otherwise. */
  function Stem(userInput: string): (r: string)
    ensures |r| == if |userInput| <= 20 then |userInput| else 20
    ensures forall i :: 0 <= i < |r| ==> r[i] == if IsAsciiAlnum(userInput[i]) then userInput[i] else '_'
    ensures forall i :: 0 <= i < |r| ==> IsAsciiAlnum(r[i]) || r[i] == '_'
  {
    MaskNonAlnum(if |userInput| <= 20 then userInput else userInput[..20])
  }

  /** The name `handleDownload` gives the Markdown file: the stem and '.md',
      or 'social_post.md' for an empty input. */
  function DownloadFilename(userInput: string): (r: string)
    ensures userInput == "" ==> r == "social_post.md"
    ensures userInput != "" ==>
              3 < |r| <= 23 && r[..|r| - 3] == Stem(userInput) && r[|r| - 3..] == ".md"
  {
    if userInput == "" then "social_post.md" else Stem(userInput) + ".md"
  }

  /** The string reply is parsed after every single quote became a double quote. */
  function QuotesSwapped(s: string): (r: string)
    ensures |r| == |s| && '\'' !in r
    ensures forall i :: 0 <= i < |s| && s[i] != '\'' ==> r[i] == s[i]
    ensures forall i :: 0 <= i < |s| && s[i] == '\'' ==> r[i] == '"'
  {
    ReplaceChar(s, '\'', '"')
  }

  class Page {
    var userInput: string
    var response: string
    var isLoading: bool
    var error: Option<string>
    var images: seq<string>
    var isImageLoading: bool

    constructor ()
      ensures userInput == "" && response == "" && !isLoading && error == None
      ensures images == [] && !isImageLoading
    {
      userInput := "";
      response := "";
      isLoading := false;
      error := None;
      images := [];
      isImageLoading := false;
    }

    method SetUserInput(text: string)
      modifies this`userInput
      ensures userInput == text
    {
      userInput := text;
    }

    /** The generate button is enabled when idle and the input is not blank. */
    predicate SubmitEnabled()
      reads this
    {
      !isLoading && Strip(JavaScript, userInput) != ""
    }

    /** `handleSubmit`: the error and the images are cleared first; a post
        that does not arrive leaves the previous one in place. */
    method HandleSubmit(reply: PostReply) returns (request: string)
      modifies this`isLoading, this`error, this`images, this`response
      ensures request == userInput
      ensures images == [] && !isLoading
      ensures reply.PostOk? ==> response == reply.message && error == None
      ensures !reply.PostOk? ==> response == old(response) && error == Some(SubmitFailed)
    {
      isLoading := true;
      error := None;
      images := [];
      request := userInput;
      match reply {
        case PostOk(message) => response := message;
        case PostNotOk => error := Some(SubmitFailed);
        case PostUnreachable => error := Some(SubmitFailed);
      }
      isLoading := false;
    }

    /** `handleDownload`: nothing without a post, otherwise the file name. */
    method HandleDownload() returns (filename: Option<string>)
      ensures filename.None? <==> response == ""
      ensures filename.Some? ==> filename.value == DownloadFilename(userInput)
    {
      if response == "" {
        return None;
      }
      filename := Some(DownloadFilename(userInput));
    }

    /** `handleImageGeneration`: without a post only the error is set and no
        request is made; otherwise the reply's list, or the parsed string
        reply, becomes the images, and any other outcome sets the error and
        keeps the images. `parse` stands for `JSON.parse` giving a list. */
    method HandleImageGeneration(reply: ImageReply, parse: string -> Option<seq<string>>)
      returns (request: Option<string>)
      modifies this`isImageLoading, this`error, this`images
      ensures request.None? <==> old(response) == ""
      ensures request.None? ==>
                error == Some(GeneratePostFirst) && images == old(images) && isImageLoading == old(isImageLoading)
      ensures request.Some? ==> request.value == response && !isImageLoading
      ensures request.Some? && reply.ImageList? ==> images == reply.urls && error == None
      ensures request.Some? && reply.ImageText? && parse(QuotesSwapped(reply.text)).Some? ==>
                images == parse(QuotesSwapped(reply.text)).value && error == None
      ensures request.Some? && !reply.ImageList?
              && !(reply.ImageText? && parse(QuotesSwapped(reply.text)).Some?) ==>
                images == old(images) && error == Some(ImagesFailed)
    {
      if response == "" {
        error := Some(GeneratePostFirst);
        return None;
      }
      isImageLoading := true;
      error := None;
      request := Some(response);
      match reply {
        case ImageList(urls) => images := urls;
        case ImageText(text) =>
          var parsed := parse(QuotesSwapped(text));
          if parsed.Some? {
            images := parsed.value;
          } else {
            error := Some(ImagesFailed);
          }
        case ImageOther => error := Some(ImagesFailed);
        case ImagesNotOk => error := Some(ImagesFailed);
        case ImagesUnreachable => error := Some(ImagesFailed);
      }
      isImageLoading := false;
    }
  }
}
