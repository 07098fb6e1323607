/** server/server/services/llm/models.py: the OpenAI model names and the two
    classification predicates over them. */
module LlmModels {
  import opened Wrappers

  const Gpt4: string := "gpt-4"
  const Gpt4Turbo: string := "gpt-4-turbo"
  const Gpt35Turbo: string := "gpt-3.5-turbo"
  const Gpt4Vision: string := "gpt-4-vision-preview"
  const Whisper: string := "whisper-1"
  const DallE3: string := "dall-e-3"
  const DallE2: string := "dall-e-2"
  const Embedding3Large: string := "text-embedding-3-large"
  const Embedding3Small: string := "text-embedding-3-small"

  /** The groups the constants are declared under. */
  datatype ModelKind = Chat | Vision | Audio | Image | Embedding

  /** The catalogue of declared names with the group each is listed under; `None` for a
      name the class does not declare. */
  function KindOf(m: string): Option<ModelKind> {
    if m == Gpt4 || m == Gpt4Turbo || m == Gpt35Turbo then Some(Chat)
    else if m == Gpt4Vision then Some(Vision)
    else if m == Whisper then Some(Audio)
    else if m == DallE3 || m == DallE2 then Some(Image)
    else if m == Embedding3Large || m == Embedding3Small then Some(Embedding)
    else None
  }

  /** `is_vision_model`: exactly the vision entry of the catalogue. */
  function IsVisionModel(m: string): (b: bool)
    ensures b <==> KindOf(m) == Some(Vision)
  {
    m == Gpt4Vision
  }

  /** `is_chat_model`: exactly the chat entries of the catalogue. */
  function IsChatModel(m: string): (b: bool)
    ensures b <==> KindOf(m) == Some(Chat)
  {
    m in [Gpt4, Gpt4Turbo, Gpt35Turbo]
  }

  /** No name is both a chat and a vision model. */
  lemma ChatAndVisionDisjoint(m: string)
    ensures !(IsChatModel(m) && IsVisionModel(m))
  {
  }

  /** The audio, image and embedding names are neither chat nor vision models. */
  lemma OtherModelsAreNeither(m: string)
    requires m in [Whisper, DallE3, DallE2, Embedding3Large, Embedding3Small]
    ensures !IsChatModel(m) && !IsVisionModel(m)
  {
  }
}
