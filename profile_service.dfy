/** The profile service client (src/service/profile.tsx). */
module ProfileService {
  import opened Wrappers
  import opened Types

  const UploadPath: string := "/profile/upload-cv"

  /** `GET /profile/{userId}` and `PUT /profile/{user_id}` address the same resource. */
  function ProfilePath(userId: string): (p: string)
    ensures |p| == 9 + |userId| && p[9..] == userId
  {
    "/profile/" + userId
  }

  /** `getProfile`: the body on success, null for a 404 ("no profile yet"),
      and any other failure rethrown unchanged. */
  function GetProfile(outcome: Response<Profile>): (r: Response<Option<Profile>>)
    ensures outcome.Ok? ==> r == Ok(Some(outcome.body))
    ensures outcome == Err(Some(404)) ==> r == Ok(None)
    ensures outcome.Err? && outcome.status != Some(404) ==> r == Err(outcome.status)
    ensures r == Ok(None) <==> outcome == Err(Some(404))
  {
    match outcome
    case Ok(data) => Ok(Some(data))
    case Err(status) => if status == Some(404) then Ok(None) else Err(status)
  }

  /** One entry of a multipart form. */
  datatype FormField = FileField(name: string, file: FileInfo) | TextField(name: string, value: string)

  /** `uploadCV`'s form: the file under 'file', then the user id under 'userId'. */
  function UploadForm(file: FileInfo, userId: string): (form: seq<FormField>)
    ensures |form| == 2
    ensures form[0].name == "file" && form[0].FileField? && form[0].file == file
    ensures form[1].name == "userId" && form[1].TextField? && form[1].value == userId
  {
    [FileField("file", file), TextField("userId", userId)]
  }

  /** `updateProfile` puts the whole profile to the path named by its own `user_id`. */
  datatype PutRequest = PutRequest(path: string, body: Profile)

  function UpdateRequest(p: Profile): (req: PutRequest)
    ensures req.body == p && req.path == ProfilePath(p.user_id)
  {
    PutRequest(ProfilePath(p.user_id), p)
  }
}
