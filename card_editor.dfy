/** The card editor page (app/page.tsx) as an object whose fields are the
    page's React state and whose methods are its event handlers. Rendering,
    alerts and logging are not modelled; the generate request is split into
    the part before the network call and the part after its answer. */
module CardEditor {

  import opened Wrappers
  import GenerateRoute

  /** The bundled illustrations the preview cycles through. */
  const Illustrations: seq<string> := [
    "/watercolor-bunny-in-winter-scene.jpg",
    "/vintage-cardinal-bird-on-snowy-branch.jpg",
    "/cozy-winter-cottage-with-smoke.jpg",
    "/hand-painted-christmas-wreath.jpg",
    "/watercolor-deer-in-snow.jpg"
  ]

  const Placeholder: string := "/placeholder.svg"
  const GenerateFailed: string := "生成失败"
  const GenerateCrashed: string := "生成出错，请重试"

  /** The five text fields of the card form. */
  datatype CardForm = CardForm(yourName: string, yourEmail: string, recipientName: string,
                               recipientEmail: string, message: string)

  const EmptyForm: CardForm := CardForm("", "", "", "", "")

  datatype FormField = YourName | YourEmail | RecipientName | RecipientEmail | Message

  function FieldValue(form: CardForm, field: FormField): string
  {
    match field
    case YourName => form.yourName
    case YourEmail => form.yourEmail
    case RecipientName => form.recipientName
    case RecipientEmail => form.recipientEmail
    case Message => form.message
  }

  /** `{ ...formData, [field]: value }`: the field takes the new value and
      every other field keeps its old one. */
  function WithField(form: CardForm, field: FormField, value: string): (form': CardForm)
    ensures FieldValue(form', field) == value
    ensures forall other :: other != field ==> FieldValue(form', other) == FieldValue(form, other)
  {
    match field
    case YourName => form.(yourName := value)
    case YourEmail => form.(yourEmail := value)
    case RecipientName => form.(recipientName := value)
    case RecipientEmail => form.(recipientEmail := value)
    case Message => form.(message := value)
  }

  /** What the preview image shows. */
  datatype Preview = GeneratedImage(url: string) | UploadedImage(file: GenerateRoute.ImageFile) | Illustration(path: string)

  /** How the generate request ended, as the page sees it: a JSON response
      from `/api/generate`, or an error thrown by `fetch` or `.json()`. */
  datatype GenerateAnswer = Answered(response: GenerateRoute.GenerateResponse) | RequestThrew

  class Editor {
    var currentIllustration: int
    var form: CardForm
    var uploadedImage: Option<GenerateRoute.ImageFile>
    var generatedImage: Option<string>
    var isGenerating: bool
    var aiError: string

    /** The illustration index always names one of the illustrations. */
    predicate Valid()
      reads this
    {
      0 <= currentIllustration < |Illustrations|
    }

    /** The initial state of every `useState` hook. */
    constructor ()
      ensures Valid()
      ensures currentIllustration == 0 && form == EmptyForm
      ensures uploadedImage == None && generatedImage == None
      ensures !isGenerating && aiError == ""
    {
      currentIllustration := 0;
      form := EmptyForm;
      uploadedImage := None;
      generatedImage := None;
      isGenerating := false;
      aiError := "";
    }

    /** `paintAgain`: the next illustration, wrapping after the last. */
    method PaintAgain()
      requires Valid()
      modifies this
      ensures Valid()
      ensures currentIllustration == (old(currentIllustration) + 1) % |Illustrations|
      ensures form == old(form) && uploadedImage == old(uploadedImage) && generatedImage == old(generatedImage)
      ensures isGenerating == old(isGenerating) && aiError == old(aiError)
    {
      currentIllustration := (currentIllustration + 1) % |Illustrations|;
    }

    /** `startOver`: clears the form and returns to the first illustration;
      the photo, the generated image and the error message stay. */
    method StartOver()
      modifies this
      ensures Valid()
      ensures form == EmptyForm && currentIllustration == 0
      ensures uploadedImage == old(uploadedImage) && generatedImage == old(generatedImage)
      ensures isGenerating == old(isGenerating) && aiError == old(aiError)
    {
      form := EmptyForm;
      currentIllustration := 0;
    }

    /** A field's `onChange`: that field takes the typed value. */
    method EditField(field: FormField, value: string)
      modifies this
      ensures form == WithField(old(form), field, value)
      ensures currentIllustration == old(currentIllustration)
      ensures uploadedImage == old(uploadedImage) && generatedImage == old(generatedImage)
      ensures isGenerating == old(isGenerating) && aiError == old(aiError)
    {
      form := WithField(form, field, value);
    }

    /** The file input's `onChange`: a chosen file replaces the photo and
      discards the generated image and the error; choosing nothing changes
      nothing. */
    method SelectFile(file: Option<GenerateRoute.ImageFile>)
      modifies this
      ensures file.Some? ==> uploadedImage == file && generatedImage == None && aiError == ""
      ensures file.Some? ==> PreviewSource() == UploadedImage(file.value)
      ensures file.None? ==> uploadedImage == old(uploadedImage) && generatedImage == old(generatedImage)
                             && aiError == old(aiError)
      ensures currentIllustration == old(currentIllustration) && form == old(form)
      ensures isGenerating == old(isGenerating)
    {
      if file.Some? {
        uploadedImage := file;
        generatedImage := None;
        aiError := "";
      }
    }

    /** The generate button up to the request: without a photo nothing is
      sent and nothing changes; otherwise the page enters the generating
      state and sends the photo as the form's `image` entry. */
    method BeginGenerate() returns (request: Option<GenerateRoute.Form>)
      modifies this
      ensures old(uploadedImage).None? ==> request == None && unchanged(this)
      ensures old(uploadedImage).Some? ==>
                && request == Some(GenerateRoute.FormData(old(uploadedImage)))
                && isGenerating && aiError == "" && generatedImage == None
                && uploadedImage == old(uploadedImage)
                && PreviewSource() == UploadedImage(old(uploadedImage).value)
                && currentIllustration == old(currentIllustration) && form == old(form)
    {
      if uploadedImage.None? {
        return None;
      }
      isGenerating := true;
      aiError := "";
      generatedImage := None;
      request := Some(GenerateRoute.FormData(uploadedImage));
    }

    /** The generate button after the request: a success shows the returned
      image, a rejection shows its message (or a generic one when it has
      none), a thrown error shows the retry message; in every case the page
      leaves the generating state. */
    method FinishGenerate(answer: GenerateAnswer)
      modifies this
      ensures !isGenerating
      ensures answer.Answered? && answer.response.Generated? ==>
                generatedImage == Some(answer.response.imageUrl) && aiError == old(aiError)
      ensures answer.Answered? && answer.response.Rejected? ==>
                && aiError == (if answer.response.message != "" then answer.response.message else GenerateFailed)
                && generatedImage == old(generatedImage)
      ensures answer.RequestThrew? ==> aiError == GenerateCrashed && generatedImage == old(generatedImage)
      ensures (answer.Answered? && answer.response.Rejected?) || answer.RequestThrew? ==> aiError != ""
      ensures answer.Answered? && answer.response.Generated? && answer.response.imageUrl != "" ==>
                PreviewSource() == GeneratedImage(answer.response.imageUrl)
      ensures currentIllustration == old(currentIllustration) && form == old(form)
      ensures uploadedImage == old(uploadedImage)
    {
      match answer {
        case Answered(response) =>
          if response.Generated? {
            generatedImage := Some(response.imageUrl);
          } else {
            aiError := if response.message != "" then response.message else GenerateFailed;
          }
        case RequestThrew =>
          aiError := GenerateCrashed;
      }
      isGenerating := false;
    }

    /** The preview: the generated image when there is one, else the
      uploaded photo, else the current illustration (or the placeholder
      when the index names none). */
    function PreviewSource(): (p: Preview)
      reads this
      ensures generatedImage.Some? && generatedImage.value != "" ==> p == GeneratedImage(generatedImage.value)
      ensures (generatedImage.None? || generatedImage.value == "") && uploadedImage.Some? ==>
                p == UploadedImage(uploadedImage.value)
      ensures (generatedImage.None? || generatedImage.value == "") && uploadedImage.None? ==>
                p.Illustration? && (p.path == Placeholder <==> !Valid())
      ensures Valid() && p.Illustration? ==> p.path == Illustrations[currentIllustration]
    {
      if generatedImage.Some? && generatedImage.value != "" then GeneratedImage(generatedImage.value)
      else if uploadedImage.Some? then UploadedImage(uploadedImage.value)
      else if 0 <= currentIllustration < |Illustrations| then Illustration(Illustrations[currentIllustration])
      else Illustration(Placeholder)
    }
  }
}
