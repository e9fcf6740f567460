/** The request and response records of backend/models/multimodal.py. */
module Multimodal {
  import opened Wrappers
  import opened Json
  import opened Schemas

  /** `MultimodalRequest.modality`. */
  datatype Modality = TextMode | VoiceMode | FileMode

  function ModalityName(m: Modality): string
  {
    match m
    case TextMode => "text"
    case VoiceMode => "voice"
    case FileMode => "file"
  }

  datatype TextInput = TextInput(text: string)

  datatype VoiceInput = VoiceInput(transcript: string, audioUrl: Option<string>, durationSeconds: Option<real>)

  datatype FileInput = FileInput(fileId: string, fileName: string, fileType: string, fileSize: int, fileUrl: string)

  /** A user request; `metadata` may be explicitly `None`. */
  datatype MultimodalRequest = MultimodalRequest(
    modality: Modality,
    textInput: Option<TextInput>,
    voiceInput: Option<VoiceInput>,
    fileInput: Option<FileInput>,
    sessionId: string,
    userId: string,
    timestamp: string,
    metadata: Option<Fields>)

  /** The cards returned to the frontend for one request. */
  datatype A2UIResponse = A2UIResponse(
    cards: seq<Card>,
    sessionId: string,
    timestamp: string,
    metadata: Option<Fields>)
}
