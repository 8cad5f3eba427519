/**
  The file router: uploads answer with the content split into lines on
  "\n", saves write under "uploaded/", and the protected download serves a
  saved file or answers 404. File contents are taken as already decoded
  text, and the disk as a map from path to content.
 */
module FileRouter {
  import opened Api

  const Newline := '\n'

  /** `content.split('\n')`: the text between consecutive newlines, one more piece than there are newlines. */
  function Split(s: string): (lines: seq<string>)
    ensures |lines| >= 1
    decreases |s|
  {
    if s == [] then [""]
    else if s[0] == Newline then [""] + Split(s[1..])
    else
      var rest := Split(s[1..]);
      [[s[0]] + rest[0]] + rest[1..]
  }

  /** `"\n".join(lines)`. */
  function Join(lines: seq<string>): string
    decreases |lines|
  {
    if lines == [] then ""
    else if |lines| == 1 then lines[0]
    else lines[0] + [Newline] + Join(lines[1..])
  }

  /** Splitting around one newline splits each side. */
  lemma {:induction false} SplitAroundNewline(a: string, b: string)
    ensures Split(a + [Newline] + b) == Split(a) + Split(b)
    decreases |a|
  {
    if a == [] {
      assert a + [Newline] + b == [Newline] + b;
      assert (a + [Newline] + b)[1..] == b;
    } else {
      assert (a + [Newline] + b)[0] == a[0];
      assert (a + [Newline] + b)[1..] == a[1..] + [Newline] + b;
      SplitAroundNewline(a[1..], b);
    }
  }

  /** Text without a newline is a single line. */
  lemma {:induction false} SplitSingleLine(s: string)
    requires Newline !in s
    ensures Split(s) == [s]
    decreases |s|
  {
    if s != [] {
      assert Newline !in s[1..];
      SplitSingleLine(s[1..]);
      assert [s[0]] + s[1..] == s;
    }
  }

  /** Joining the lines with "\n" gives back the content exactly. */
  lemma {:induction false} JoinSplit(s: string)
    ensures Join(Split(s)) == s
    decreases |s|
  {
    if s != [] {
      JoinSplit(s[1..]);
      var rest := Split(s[1..]);
      if s[0] == Newline {
        assert [s[0]] + s[1..] == s;
      } else {
        var lines := Split(s);
        assert lines[0] == [s[0]] + rest[0];
        assert lines[1..] == rest[1..];
        if |rest| == 1 {
          assert Join(lines) == [s[0]] + rest[0];
        } else {
          assert Join(lines) == [s[0]] + rest[0] + [Newline] + Join(rest[1..]);
          assert Join(rest) == rest[0] + [Newline] + Join(rest[1..]);
        }
        assert [s[0]] + s[1..] == s;
      }
    }
  }

  /** No returned line contains a newline. */
  lemma {:induction false} LinesHaveNoNewline(s: string)
    ensures forall i :: 0 <= i < |Split(s)| ==> Newline !in Split(s)[i]
    decreases |s|
  {
    if s != [] {
      LinesHaveNoNewline(s[1..]);
    }
  }

  /** There is one line more than there are newlines. */
  lemma {:induction false} LineCount(s: string)
    ensures |Split(s)| == multiset(s)[Newline] + 1
    decreases |s|
  {
    if s != [] {
      LineCount(s[1..]);
      assert s == [s[0]] + s[1..];
      assert multiset(s) == multiset([s[0]]) + multiset(s[1..]);
    }
  }

  /** Empty content is one empty line, and a trailing newline ends the list with an empty line. */
  lemma EmptyAndTrailing(s: string)
    ensures Split("") == [""]
    ensures Split(s + [Newline]) == Split(s) + [""]
  {
    SplitAroundNewline(s, "");
    assert s + [Newline] + "" == s + [Newline];
  }

  /** Lines without newlines survive a join and a split. */
  lemma {:induction false} SplitJoin(lines: seq<string>)
    requires |lines| >= 1
    requires forall i :: 0 <= i < |lines| ==> Newline !in lines[i]
    ensures Split(Join(lines)) == lines
    decreases |lines|
  {
    if |lines| == 1 {
      SplitSingleLine(lines[0]);
    } else {
      SplitJoin(lines[1..]);
      SplitSingleLine(lines[0]);
      SplitAroundNewline(lines[0], Join(lines[1..]));
      assert [lines[0]] + lines[1..] == lines;
    }
  }

  /** The reply of `upload_bytes`. */
  datatype LinesReply = LinesReply(lines: seq<string>)

  /** The reply of `upload_file`. */
  datatype FileLinesReply = FileLinesReply(filename: string, lines: seq<string>)

  function UploadBytes(content: string): (r: LinesReply)
    ensures Join(r.lines) == content
    ensures forall i :: 0 <= i < |r.lines| ==> Newline !in r.lines[i]
  {
    JoinSplit(content);
    LinesHaveNoNewline(content);
    LinesReply(Split(content))
  }

  function UploadFile(filename: string, content: string): (r: FileLinesReply)
    ensures r.filename == filename && Join(r.lines) == content
  {
    JoinSplit(content);
    FileLinesReply(filename, Split(content))
  }

  /** Both uploads answer with the same lines for the same content, and those lines rebuild it. */
  lemma UploadsAgree(filename: string, content: string)
    ensures UploadFile(filename, content).lines == UploadBytes(content).lines
    ensures UploadFile(filename, content).filename == filename
    ensures Join(UploadBytes(content).lines) == content
  {
    JoinSplit(content);
  }

  /** The disk: file path to content. */
  type Disk = map<string, string>

  /** Where an uploaded file is stored. */
  function SavePath(name: string): string
  {
    "uploaded/" + name
  }

  datatype SaveReply = SaveReply(msg: string)

  /** `save_file`: writes (or overwrites) the file under "uploaded/". */
  function SaveFile(disk: Disk, filename: string, content: string): (r: (Disk, SaveReply))
    ensures r.0.Keys == disk.Keys + {"uploaded/" + filename} && r.0["uploaded/" + filename] == content
    ensures forall p :: p in disk && p != "uploaded/" + filename ==> r.0[p] == disk[p]
  {
    (disk[SavePath(filename) := content], SaveReply("Saved " + filename + " successfully"))
  }

  /** The file served as an attachment. */
  datatype FileResponse = FileResponse(path: string, filename: string, mediaType: string, content: string)

  /**
    What the route's user dependency made of the request: no bearer token
    at all (refused by the password-bearer scheme), a token that does not
    decode to a known user, or one that does.
   */
  datatype Credentials = NoToken | BadToken | ValidToken

  /** The 401 the user dependency answers with, or `None` when it lets the request through. */
  function Refusal<T>(credentials: Credentials): (r: Option<Result<T>>)
    ensures r.None? <==> credentials == ValidToken
    ensures r.Some? ==> r.value.Error? && r.value.status == 401
  {
    match credentials
    case NoToken => Some(Error(401, "Not authenticated"))
    case BadToken => Some(Error(401, "Could not validate credentials"))
    case ValidToken => None
  }

  /** `download_file_protected`, behind the user dependency. */
  function Download(disk: Disk, fileName: string, credentials: Credentials): (r: Result<FileResponse>)
    ensures credentials == NoToken ==> r == Error(401, "Not authenticated")
    ensures credentials == BadToken ==> r == Error(401, "Could not validate credentials")
    ensures credentials == ValidToken ==> (r.Ok? <==> SavePath(fileName) in disk)
    ensures r.Ok? ==> r.value.filename == fileName && r.value.content == disk[SavePath(fileName)]
  {
    if Refusal<FileResponse>(credentials).Some? then Refusal(credentials).value
    else if SavePath(fileName) in disk then
      Ok(FileResponse(SavePath(fileName), fileName, "application/octet-stream", disk[SavePath(fileName)]))
    else Error(404, "File not found")
  }

  /** A saved file can be downloaded by the same name, with the content saved last. */
  lemma DownloadAfterSave(disk: Disk, name: string, content: string)
    ensures Download(SaveFile(disk, name, content).0, name, ValidToken) ==
      Ok(FileResponse("uploaded/" + name, name, "application/octet-stream", content))
  {
  }

  /** An authenticated download of a name never saved answers 404; saving another name does not change that. */
  lemma DownloadMissing(disk: Disk, name: string, other: string, content: string)
    requires SavePath(name) !in disk && other != name
    ensures Download(disk, name, ValidToken) == Error(404, "File not found")
    ensures Download(SaveFile(disk, other, content).0, name, ValidToken) == Error(404, "File not found")
  {
    assert SavePath(other) != SavePath(name) by {
      assert SavePath(other)[9..] == other && SavePath(name)[9..] == name;
    }
  }

  /** Without a valid token the download is refused with 401, whether or not the file exists; with one it succeeds exactly for a saved file. */
  lemma DownloadNeedsCredentials(disk: Disk, name: string, credentials: Credentials)
    ensures credentials != ValidToken ==> Download(disk, name, credentials).Error? && Download(disk, name, credentials).status == 401
    ensures Download(disk, name, NoToken) == Error(401, "Not authenticated")
    ensures Download(disk, name, BadToken) == Error(401, "Could not validate credentials")
    ensures Download(disk, name, ValidToken).Ok? <==> SavePath(name) in disk
  {
  }
}
