/** The symptom form of SymptomFormPage.tsx: the description, one picked file
    with its preview URL, and the submit guard. Without a doctor the page shows
    only a fallback message, so the handlers below exist only with a doctor. */
module SymptomForm {
  import opened Types
  import opened Text

  const NoDoctorText := "Muganga ntiyatoranijwe. Subira inyuma uhitemo."

  /** What the page draws. */
  datatype View = NoDoctor(text: string) | Form(doctor: Doctor)

  function ViewFor(doctor: Option<Doctor>): (v: View)
    ensures v.NoDoctor? <==> doctor.None?
    ensures v.NoDoctor? ==> v.text == NoDoctorText
  {
    match doctor
    case None => NoDoctor(NoDoctorText)
    case Some(d) => Form(d)
  }

  class SymptomFormPage {
    const doctor: Option<Doctor>
    var symptoms: string
    var selectedFile: Option<UploadedFile>
    /** The object URL of the picked file. */
    var filePreview: Option<string>

    constructor(doctor: Option<Doctor>)
      ensures this.doctor == doctor && symptoms == "" && selectedFile.None? && filePreview.None?
    {
      this.doctor := doctor;
      symptoms, selectedFile, filePreview := "", None, None;
    }

    method SetSymptoms(text: string)
      requires doctor.Some?
      modifies this`symptoms
      ensures symptoms == text
    {
      symptoms := text;
    }

    /** `handleFileChange`: the first picked file and its object URL
        (`objectUrl`, made by the browser); an empty pick changes nothing. */
    method HandleFileChange(files: seq<UploadedFile>, objectUrl: string)
      requires doctor.Some?
      modifies this`selectedFile, this`filePreview
      ensures files == [] ==> selectedFile == old(selectedFile) && filePreview == old(filePreview)
      ensures files != [] ==> selectedFile == Some(files[0]) && filePreview == Some(objectUrl)
    {
      if files != [] {
        selectedFile := Some(files[0]);
        filePreview := Some(objectUrl);
      }
    }

    /** `removeFile`: both the file and its preview are cleared; the preview URL,
        if any, is the one released. */
    method RemoveFile() returns (revoked: Option<string>)
      requires doctor.Some?
      modifies this`selectedFile, this`filePreview
      ensures revoked == old(filePreview)
      ensures selectedFile.None? && filePreview.None?
    {
      revoked := filePreview;
      selectedFile := None;
      filePreview := None;
    }

    /** `handleSubmit`: nothing for a blank description; otherwise the untrimmed
        text and the file, if one is picked. */
    method HandleSubmit() returns (submitted: Option<SymptomDetails>)
      requires doctor.Some?
      ensures submitted.None? <==> IsBlank(symptoms)
      ensures submitted.Some? ==> submitted.value == SymptomDetails(symptoms, selectedFile)
    {
      if Trim(symptoms) == "" {
        return None;
      }
      submitted := Some(SymptomDetails(symptoms, selectedFile));
    }
  }
}
