/** The calls the supervisor and the routes make on the world outside them,
    recorded in the order they are made. Whether a call succeeded is an input
    of the operation that makes it; the record says only that it was made. */
module Effects {
  import opened Values

  /** How `MessageMedia.fromUrl` is asked to read a URL: as a PDF
      (`mimeType: 'application/pdf'`) or as an image (`unsafeMime: true`). */
  datatype MediaKind = PdfDocument | Picture

  /** The keys of the JSON bodies posted to the webhooks. */
  datatype Field =
    | PhoneNumberKey | TypeKey | FromKey | IdKey | TimestampKey | BodyKey | HasMediaKey
    | ImagenKey | VideoKey | CaptionKey | AudioKey | DocumentKey | FilenameKey | LocationKey
    | ContactKey | CiphertextKey | MessageKey | IsVideoKey | ReasonKey
  {
    /** The key as it is written in the JSON body. */
    function Name(): string {
      match this
      case PhoneNumberKey => "phoneNumber"
      case TypeKey => "type"
      case FromKey => "from"
      case IdKey => "id"
      case TimestampKey => "timestamp"
      case BodyKey => "body"
      case HasMediaKey => "hasMedia"
      case ImagenKey => "imagen"
      case VideoKey => "video"
      case CaptionKey => "caption"
      case AudioKey => "audio"
      case DocumentKey => "document"
      case FilenameKey => "filename"
      case LocationKey => "location"
      case ContactKey => "contact"
      case CiphertextKey => "ciphertext"
      case MessageKey => "message"
      case IsVideoKey => "isVideo"
      case ReasonKey => "reason"
    }
  }

  /** Distinct keys are written differently, so a payload keyed by `Field`
      is a JSON object with the same members. */
  lemma FieldNamesDistinct(f: Field, g: Field)
    ensures f.Name() == g.Name() <==> f == g
  {
  }

  datatype Effect =
    | GetState                                        // whatsapp.getState()
    | GetContacts                                     // whatsapp.getContacts()
    | KillProcesses(pattern: string)                  // execSync('pkill -f <pattern>')
    | RemoveFile(path: string)                        // fs.unlinkSync(path)
    | Destroy                                         // whatsapp.destroy()
    | ScheduleInitialize(delayMs: int)                // setTimeout(() => whatsapp.initialize(), delayMs)
    | Post(endpoint: string, payload: map<Field, Json>) // axios.post(url, payload)
    | RejectCall(caller: string)                      // call.reject()
    | LookupNumber(chatId: string)                    // whatsapp.getNumberId(chatId)
    | FetchMedia(url: Json, kind: MediaKind)          // MessageMedia.fromUrl(url, ...)
    | SendText(chatId: string, text: Json)            // whatsapp.sendMessage(chatId, text)
    | SendMedia(chatId: string, url: Json, caption: Json) // whatsapp.sendMessage(chatId, media, { caption })
    | Pause(ms: int)                                  // await new Promise(r => setTimeout(r, ms))

  /** An effect that fetches or sends content towards a recipient. */
  predicate IsDelivery(e: Effect) {
    e.FetchMedia? || e.SendText? || e.SendMedia?
  }
}
