/** The reply shape both agent programs send back (`{text, type, videos?, file?}`) and
    the file handler they share: `process_file` is the same code in both. */
module AgentProtocol {
  import opened Text

  /** One video card: title, watch URL, thumbnail URL, channel name. */
  datatype Video = Video(title: string, url: string, thumbnail: string, channel: string)

  datatype FileRef = FileRef(url: string, fileType: string)

  /** An agent's JSON reply; the optional fields are absent when `None`. */
  datatype AgentReply = AgentReply(text: string, kind: string, videos: Option<seq<Video>>, file: Option<FileRef>)

  const FilePrefix := "Processed file at "
  const TypeInfix := " of type "

  /** `process_file`: echoes the request's `filePath` and `fileType` (each "" when
      missing) into the reply's file reference, and names both in a text reply. */
  function ProcessFile(filePath: Option<string>, fileType: Option<string>): (r: AgentReply)
    ensures r.kind == "text" && r.videos.None? && r.file.Some?
    ensures r.file.value == FileRef(filePath.GetOr(""), fileType.GetOr(""))
    ensures r.text == FilePrefix + r.file.value.url + TypeInfix + r.file.value.fileType
  {
    var path, t := filePath.GetOr(""), fileType.GetOr("");
    AgentReply(FilePrefix + path + TypeInfix + t, "text", None, Some(FileRef(path, t)))
  }

  /** The path a file reply names comes first in its text, right after the fixed
      opening words, so the reply's text and its file reference agree. */
  lemma {:induction false} ProcessFileTextNamesPath(filePath: string, fileType: string)
    ensures var r := ProcessFile(Some(filePath), Some(fileType));
      StartsWith(r.text, FilePrefix + filePath) && r.text[|FilePrefix + filePath|..] == TypeInfix + fileType
  {
    var r := ProcessFile(Some(filePath), Some(fileType));
    assert r.text == (FilePrefix + filePath) + (TypeInfix + fileType);
  }
}
