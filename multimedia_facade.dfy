/** The multimedia facade: one `playMedia` call lower-cases the media type
    and hands the file to exactly one of the audio player, the video player
    and the image loader, or reports the type as unsupported. The three
    subsystems do nothing but print, so each is modelled by the line it
    prints. */
module MultimediaFacade {
  import opened Common

  const NullPointer: string := "NullPointerException"

  /** The line printed by a `playMedia` call. */
  datatype Output =
    | PlayingAudio(filename: string)       // AudioPlayer.playAudio
    | PlayingVideo(filename: string)       // VideoPlayer.playVideo
    | LoadingImage(filename: string)       // ImageLoader.loadImage
    | Unsupported(mediaType: string)       // "Unsupported media type: <type>"

  /** Whether the line comes from one of the three subsystems. */
  predicate IsSubsystemCall(o: Output)
  {
    !o.Unsupported?
  }

  /** `MultimediaFacade.playMedia`; a null media type throws on
      `toLowerCase`, which is the `Err` result. */
  function PlayMedia(filename: string, mediaType: Option<string>): Result<Output>
  {
    if mediaType.None? then Err(NullPointer)
    else
      match ToLower(mediaType.value)
      case "audio" => Ok(PlayingAudio(filename))
      case "video" => Ok(PlayingVideo(filename))
      case "image" => Ok(LoadingImage(filename))
      case _ => Ok(Unsupported(mediaType.value))
  }

  /** Each recognised type, in any case, reaches its own subsystem with the
      file name, and only that one. */
  lemma DispatchIff(filename: string, t: string)
    ensures PlayMedia(filename, Some(t)) == Ok(PlayingAudio(filename)) <==> ToLower(t) == "audio"
    ensures PlayMedia(filename, Some(t)) == Ok(PlayingVideo(filename)) <==> ToLower(t) == "video"
    ensures PlayMedia(filename, Some(t)) == Ok(LoadingImage(filename)) <==> ToLower(t) == "image"
  {
  }

  /** Any other type reaches no subsystem and is reported with its original
      spelling; a non-null type never fails. */
  lemma UnsupportedIff(filename: string, t: string)
    ensures PlayMedia(filename, Some(t)).Ok?
    ensures !IsSubsystemCall(PlayMedia(filename, Some(t)).value)
        <==> ToLower(t) !in {"audio", "video", "image"}
    ensures !IsSubsystemCall(PlayMedia(filename, Some(t)).value)
        ==> PlayMedia(filename, Some(t)).value == Unsupported(t)
  {
  }

  /** A subsystem that is called is called on the requested file. */
  lemma CallsWithFilename(filename: string, t: string)
    requires IsSubsystemCall(PlayMedia(filename, Some(t)).value)
    ensures PlayMedia(filename, Some(t)).value.filename == filename
  {
  }

  /** Only the lower-cased type matters for which subsystem runs. */
  lemma DependsOnlyOnLowerCase(filename: string, t1: string, t2: string)
    requires ToLower(t1) == ToLower(t2)
    ensures IsSubsystemCall(PlayMedia(filename, Some(t1)).value)
        == IsSubsystemCall(PlayMedia(filename, Some(t2)).value)
    ensures IsSubsystemCall(PlayMedia(filename, Some(t1)).value)
        ==> PlayMedia(filename, Some(t1)) == PlayMedia(filename, Some(t2))
  {
  }

  /** The demonstration calls; "document" is unsupported. */
  lemma DemoMedia()
    ensures PlayMedia("song.mp3", Some("audio")) == Ok(PlayingAudio("song.mp3"))
    ensures PlayMedia("movie.mp4", Some("video")) == Ok(PlayingVideo("movie.mp4"))
    ensures PlayMedia("picture.jpg", Some("image")) == Ok(LoadingImage("picture.jpg"))
    ensures PlayMedia("document.pdf", Some("document")) == Ok(Unsupported("document"))
    ensures PlayMedia("song.mp3", Some("AUDIO")) == Ok(PlayingAudio("song.mp3"))
  {
    assert ToLower("audio") == "audio";
    assert ToLower("video") == "video";
    assert ToLower("image") == "image";
    assert ToLower("document") == "document";
    assert ToLower("AUDIO") == "audio";
  }
}
