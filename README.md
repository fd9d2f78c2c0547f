# Face-recognition access control, modelled in Dafny

The system grants access to tiered documents by face recognition. People are enrolled with a
name, a CPF (the Brazilian taxpayer number, eleven digits) and an access tier ("Nivel 1" to
"Nivel 3"). Enrollment takes photos of their face from the webcam. The recognition program
trains a face recognizer on those photos. It grants access when an authorized CPF has been
matched at least twice in a row and three seconds have passed since the timer started. The
timer starts at the first such match after the last reset. It is not reset when the matched CPF
changes, nor by a frame whose face boxes are all too small; a frame with no face box at all
resets it. Access opens a document viewer that shows the folders the tier may read; tier 3 also
gets the administration tools (enroll, add photos, delete).

The model covers five programs:

- **Shared state** (`Tables`, `Dict`, `Files`).
  - The two JSON tables: `validation.json` maps tier name to member list; `userData.json` maps
    CPF to name and photo-folder id.
  - Python dicts are modelled in insertion order.
  - The file system is a map from path to content. Each revision keeps its tables in its own
    place.
- **`utils_admin.py`** (`UtilsAdmin`, `Validation`, `Imaging`, `Camera`).
  - The image-quality check, in exact integer form, and data augmentation.
  - Model invalidation and the JSON save.
  - The photo-capture loop, as an imperative loop over camera events that writes to a `Disk`
    object.
  - The enroll, add-photos and delete workflows, with every rejection and write failure.
- **`app.py`** (`Training`, `Recognition`).
  - The training-set builder: its filters, six variants per photo and the id-to-label map.
  - Training and saving the model, and the load-or-train choice at start-up.
  - The recognition loop, as a class `Engine` whose methods update the timer, the consecutive
    match count and the last CPF. They are proved against pure step functions, and the access
    properties are lemmas about those functions.
- **`cadastro_app.py`** (`Cadastro`): the earlier enrollment program. Its tables sit next to the
  scripts and are keyed by the CPF as typed; its photos are numbered.
- **`admin_app.py`** (`AdminApp`): its add-photos and delete operations.
- **`document_viewer.py`** (`DocumentViewer`): the tier-to-folders policy, the greeting, and
  when the administration tools appear.

An unauthorized CPF does not reset the recognition state: app.py:263-288 only updates the
consecutive-match count and keeps the timer.

## Model

| member | source | states |
|---|---|---|
| Seqs.RemoveFirst | reconhecimento_niveis/utils_admin.py:638-639 | the total function returns a list without `x` unchanged; the source only calls `remove` after its `cpf in ...` test (also admin_app.py:131-132), where Python would otherwise raise ValueError |
| Seqs.RemoveFirstMultiset | reconhecimento_niveis/utils_admin.py:639 | `list.remove(x)` takes away exactly one `x` when there is one, and no other element |
| Seqs.RemoveFirstAt | reconhecimento_niveis/utils_admin.py:639 | `list.remove(x)` cuts the list at the first occurrence of `x` and keeps the order of the rest |
| Dict.Keys | reconhecimento_niveis/app.py:138 | `d.keys()` lists the keys of the entries, in insertion order |
| Dict.Values | reconhecimento_niveis/app.py:149 | `d.values()` lists the values of the entries, in insertion order |
| Dict.Get | reconhecimento_niveis/utils_admin.py:610-613 | a lookup finds a value exactly when the key is present, and the value is stored under that key |
| Dict.PutGet | reconhecimento_niveis/utils_admin.py:600 | after `d[k] = v`, `d[k]` is `v` |
| Dict.PutGetOther | reconhecimento_niveis/utils_admin.py:600 | `d[k] = v` changes no other key's value |
| Dict.PutKeys | reconhecimento_niveis/utils_admin.py:598 | `d[k] = v` keeps a present key in its place and appends a new key at the end |
| Dict.PutHasKeys | reconhecimento_niveis/utils_admin.py:600 | after `d[k] = v` the keys are exactly the old keys and `k` |
| Dict.PutUnique | reconhecimento_niveis/utils_admin.py:600 | assignment never creates a second entry for a key |
| Dict.RemoveGetOther | reconhecimento_niveis/utils_admin.py:641 | `del d[k]` changes no other key's value |
| Dict.RemoveKeys | reconhecimento_niveis/utils_admin.py:641 | `del d[k]` removes `k` from the key order and keeps the order of the others |
| Dict.RemoveGet | reconhecimento_niveis/utils_admin.py:641 | after `del d[k]` the key `k` is absent |
| Dict.RemoveUnique | reconhecimento_niveis/utils_admin.py:641 | `del` keeps every key unique |
| Tables.FirstTierWith | reconhecimento_niveis/app.py:181-182 | finds the first tier in table order whose list holds the CPF: it lists the CPF and no earlier tier does; None exactly when no tier lists it |
| Tables.TierOf | reconhecimento_niveis/app.py:179-184 | "Autorizado" exactly when some tier lists the CPF, with the first such tier's name; otherwise "Nível Desconhecido" |
| Tables.ListedIffOccurs | reconhecimento_niveis/app.py:179-184 | no tier lists the CPF exactly when it occurs nowhere in the table |
| Tables.DropFirst | reconhecimento_niveis/utils_admin.py:637-640 | removal keeps the number of tiers |
| Tables.DropFirstKeys | reconhecimento_niveis/utils_admin.py:637-640 | removal renames no tier and keeps the tier order |
| Tables.DropFirstChanges | reconhecimento_niveis/utils_admin.py:637-640 | only the first tier listing the CPF changes, and its list loses the first occurrence of the CPF |
| Tables.DropFirstOccurrences | reconhecimento_niveis/utils_admin.py:637-640 | removal takes away one occurrence of the CPF, when it occurs, and none of any other CPF |
| Tables.DropFirstSkips | reconhecimento_niveis/utils_admin.py:637-640 | tiers before the first one listing the CPF are left untouched |
| Tables.DropFromFirstTier | reconhecimento_niveis/utils_admin.py:637-640 | the scan-and-break loop computes exactly the first-tier removal |
| Tables.WithLevel | reconhecimento_niveis/utils_admin.py:598 | after creating a missing tier record the tier exists |
| Tables.PutOccurrences | reconhecimento_niveis/utils_admin.py:598-599 | writing a tier record replaces that record's occurrences of a CPF and keeps all others |
| Tables.WithLevelEffect | reconhecimento_niveis/utils_admin.py:598 | creating a missing tier touches no other record and adds the tier at the end |
| Tables.AppendMemberEffect | reconhecimento_niveis/utils_admin.py:599 | the tier's list becomes the old list plus the CPF, and every other tier is unchanged |
| Tables.AppendMemberOccurrences | reconhecimento_niveis/utils_admin.py:599 | appending adds one occurrence of the CPF and none of any other CPF |
| Tables.PutMakesFirstHolder | reconhecimento_niveis/utils_admin.py:598-599 | a CPF no tier listed is, once written into a tier, reported under that tier |
| Tables.AppendMemberLookup | reconhecimento_niveis/utils_admin.py:598-599 | after enrollment the lookup of a new CPF reports the tier it was enrolled in, as authorized |
| Tables.AddMemberOnceNoDuplicate | reconhecimento_niveis/cadastro_app.py:402-406 | the guarded append never lists a CPF twice in one tier, and the list still holds the CPF |
| Tables.EnrollKeepsConsistent | reconhecimento_niveis/utils_admin.py:588-600 | enrolling a new CPF keeps both tables consistent: unique keys, each CPF listed at most once, and only enrolled CPFs listed |
| Tables.DeleteKeepsConsistent | reconhecimento_niveis/utils_admin.py:637-641 | deletion keeps the tables consistent and leaves the CPF unauthorized |
| Validation.CleanCpf | reconhecimento_niveis/utils_admin.py:576 | cleaning never lengthens the typed CPF |
| Validation.CleanCpfChars | reconhecimento_niveis/utils_admin.py:576 | cleaning keeps exactly the characters other than '.' and '-' |
| Validation.CleanCpfAppend | reconhecimento_niveis/utils_admin.py:576 | cleaning works piece by piece over concatenation |
| Validation.CheckCpf | reconhecimento_niveis/utils_admin.py:576-579 | a CPF is accepted exactly when its cleaned form is eleven digits, and the accepted value is the cleaned form |
| Validation.CleanCpfKeepsPlain | reconhecimento_niveis/utils_admin.py:576 | a string without '.' or '-' is its own cleaned form |
| Validation.CleanCpfIdempotent | reconhecimento_niveis/utils_admin.py:576-579 | cleaning is idempotent, and an accepted CPF is accepted again as itself |
| Validation.CleanDigits | reconhecimento_niveis/utils_admin.py:576 | a string of digits is its own cleaned form |
| Validation.CleanSkips | reconhecimento_niveis/utils_admin.py:576 | cleaning drops a punctuation character between two pieces |
| Validation.PunctuatedAccepted | reconhecimento_niveis/utils_admin.py:576-579 | the printed form `ddd.ddd.ddd-dd` of every valid CPF is accepted and cleans to the CPF |
| Validation.PunctuatedDiffers | reconhecimento_niveis/utils_admin.py:577 | the printed form differs from the CPF and is not itself eleven digits |
| Validation.RejectedCpfs | reconhecimento_niveis/utils_admin.py:577-579 | ten digits, or a letter among eleven characters, are rejected |
| Validation.StripLeft | reconhecimento_niveis/utils_admin.py:581 | leading whitespace is removed and the result does not start with whitespace |
| Validation.StripRight | reconhecimento_niveis/utils_admin.py:581 | the result is a prefix of the input that does not end in whitespace |
| Validation.Decimal | reconhecimento_niveis/utils_admin.py:583 | `str(n)` is a non-empty string of digits |
| Validation.DecimalValue | reconhecimento_niveis/utils_admin.py:583 | the digits of `str(n)` have the value `n` |
| Validation.DecimalRoundTrip | reconhecimento_niveis/utils_admin.py:581-583 | `int(str(n)) == n` for every natural number |
| Validation.ParseLevel | reconhecimento_niveis/utils_admin.py:580-586 | a tier is accepted exactly when `int()` succeeds with 1, 2 or 3, and the value is that number |
| Validation.LevelNameRoundTrip | reconhecimento_niveis/utils_admin.py:583 | the tier name `Nivel n` gives back its number |
| Validation.ParseLevelAccepts | reconhecimento_niveis/utils_admin.py:581-582 | "2", " 3\n" and "+01" are accepted as 2, 3 and 1 |
| Validation.ParseLevelRejectsOutOfRange | reconhecimento_niveis/utils_admin.py:582 | "0", "4" and "-1" are rejected |
| Validation.ParseLevelRejectsNonIntegers | reconhecimento_niveis/utils_admin.py:584-586 | "2.0", "" and "1_" are rejected |
| Imaging.LargestIndex | reconhecimento_niveis/utils_admin.py:476 | `max(..., key=w*h)` picks a box of greatest area, the first one among equals |
| Imaging.SliceLength | reconhecimento_niveis/utils_admin.py:480 | a slice `[s:s+l]` has at most `l` entries and stays inside the axis |
| Files.AddFolders | reconhecimento_niveis/utils_admin.py:403 | created directories are added as folders, and existing entries are kept unchanged |
| Files.WithDirs | reconhecimento_niveis/utils_admin.py:379 | `makedirs` makes the path and its ancestors exist and changes no existing entry |
| Files.WithoutTree | reconhecimento_niveis/utils_admin.py:636 | `rmtree` removes exactly the photo folder and its contents |
| Files.WriteShotsSnoc | reconhecimento_niveis/utils_admin.py:485-487 | saving one more photo writes exactly one more file |
| Files.WriteShotsOnlyPhotos | reconhecimento_niveis/utils_admin.py:485-487 | saving photos removes nothing and changes nothing but photo files |
| Files.LoadTiers | reconhecimento_niveis/utils_admin.py:356-370 | a missing or unreadable tier file loads as `{}`, otherwise as its table |
| Files.LoadUsers | reconhecimento_niveis/utils_admin.py:356-370 | a missing or unreadable identity file loads as `{}`, otherwise as its table |
| Files.Disk.MakeDirs | reconhecimento_niveis/utils_admin.py:403 | the disk afterwards is the one with the directories made |
| Files.Disk.Write | reconhecimento_niveis/utils_admin.py:382-386 | one file is written or overwritten and nothing else changes |
| Files.Disk.Remove | reconhecimento_niveis/utils_admin.py:351 | one file is removed and nothing else changes |
| Files.Disk.RemoveTree | reconhecimento_niveis/utils_admin.py:636 | the disk afterwards is the one without the photo folder |
| UtilsAdmin.ScaledLess | reconhecimento_niveis/utils_admin.py:326 | `S/n < b` exactly when `S < b*n` |
| UtilsAdmin.ScaledGreater | reconhecimento_niveis/utils_admin.py:326 | `S/n > b` exactly when `S > b*n` |
| UtilsAdmin.VarianceScaled | reconhecimento_niveis/utils_admin.py:330 | the population variance times `n²` is `n*Q - S²` |
| UtilsAdmin.ScaledBelow | reconhecimento_niveis/utils_admin.py:331 | comparing the variance with 225 is comparing its scaled integer form |
| UtilsAdmin.VarianceForm | reconhecimento_niveis/utils_admin.py:330-331 | the deviation is below 15 exactly when `n*Q - S² < 225*n²` |
| UtilsAdmin.QualityOkMeaning | reconhecimento_niveis/utils_admin.py:318-340 | the exact integer check accepts exactly when the mean is in [40, 200], the deviation is at least 15 and a face is found |
| UtilsAdmin.Augmented | reconhecimento_niveis/utils_admin.py:287-316 | six variants, the first being the image itself, all of the input's size |
| UtilsAdmin.Augment | reconhecimento_niveis/utils_admin.py:287-316 | the append loop builds exactly the six variants in that order |
| UtilsAdmin.Invalidated | reconhecimento_niveis/utils_admin.py:344-354 | the model file and the id map are gone, and every other path and content is unchanged |
| UtilsAdmin.InvalidatedIdempotent | reconhecimento_niveis/utils_admin.py:344-354 | invalidating twice is invalidating once |
| UtilsAdmin.InvalidateModel | reconhecimento_niveis/utils_admin.py:344-354 | removing each existing model file yields exactly the invalidated disk |
| UtilsAdmin.SaveJson | reconhecimento_niveis/utils_admin.py:372-390 | reports whether the write succeeded; on success `Usuarios_Cadastrados/` exists and the file holds the data, on failure nothing changes |
| UtilsAdmin.ShotOf | reconhecimento_niveis/utils_admin.py:471-488 | an event saves a photo exactly on 's' with a face and a good-quality crop; it is named `id_token.jpg` and holds the crop of the largest face |
| UtilsAdmin.CapturedBound | reconhecimento_niveis/utils_admin.py:411-414 | no session saves more than ten photos |
| UtilsAdmin.CapturedFromEvents | reconhecimento_niveis/utils_admin.py:471-488 | every saved photo comes from one accepted event |
| UtilsAdmin.CapturedStops | reconhecimento_niveis/utils_admin.py:560 | nothing after the first read failure or 'q' is looked at |
| UtilsAdmin.FolderReady | reconhecimento_niveis/utils_admin.py:401-403 | the person's folder exists afterwards |
| UtilsAdmin.CapturedAdvance | reconhecimento_niveis/utils_admin.py:414-560 | one turn of the loop that neither fails nor quits moves the capture invariant forward |
| UtilsAdmin.SaveShot | reconhecimento_niveis/utils_admin.py:471-488 | a photo is written exactly when the event saves one, and it is that photo |
| UtilsAdmin.CaptureLoop | reconhecimento_niveis/utils_admin.py:411-564 | returns the number of photos the session saves and writes exactly those photos |
| UtilsAdmin.TakePhotos | reconhecimento_niveis/utils_admin.py:394-564 | prepares the folder; with no camera it saves nothing and returns 0, otherwise it saves and counts the session's photos |
| UtilsAdmin.ScreenEnrollment | reconhecimento_niveis/utils_admin.py:568-590 | succeeds exactly when all prompts are answered, the CPF is valid, the tier is 1-3 and the cleaned CPF is new; yields the cleaned CPF and "Nivel n" |
| UtilsAdmin.Enroll | reconhecimento_niveis/utils_admin.py:568-603 | the disk after each path: rejection, no photo (folder removed), malformed tier, each save failure, and success with the model invalidated |
| UtilsAdmin.AddPhotos | reconhecimento_niveis/utils_admin.py:605-619 | CPF looked up as typed; the photos saved, and the model invalidated only when some were added |
| UtilsAdmin.Delete | reconhecimento_niveis/utils_admin.py:621-646 | after confirmation: folder removed, CPF dropped from its first tier and from the identities, both saves attempted, model invalidated |
| Cadastro.SaveJson | reconhecimento_niveis/cadastro_app.py:296-306 | reports whether the write succeeded and makes no directory |
| Cadastro.Ensured | reconhecimento_niveis/cadastro_app.py:263-280 | `faces/` and both tables exist afterwards, existing files are untouched, and a new table is `{}` |
| Cadastro.EnsureLayout | reconhecimento_niveis/cadastro_app.py:263-280 | the disk afterwards is the ensured layout |
| Cadastro.NumberedNames | reconhecimento_niveis/cadastro_app.py:339 | photo k of a session is named with the number of photos taken before it |
| Cadastro.NumberedNameInjective | reconhecimento_niveis/cadastro_app.py:339 | different numbers give different file names |
| Cadastro.NumberedDistinct | reconhecimento_niveis/cadastro_app.py:339-340 | a session never writes two photos under one name |
| Cadastro.NumberedAdvance | reconhecimento_niveis/cadastro_app.py:327-347 | one turn of the loop moves the capture invariant forward |
| Cadastro.CaptureLoop | reconhecimento_niveis/cadastro_app.py:326-352 | returns the number of photos saved (whole frames on 's' with a face) and writes exactly those |
| Cadastro.TakePhotos | reconhecimento_niveis/cadastro_app.py:308-352 | an existing folder or no camera saves nothing; otherwise it makes the folder and saves the session's photos |
| Cadastro.Screen | reconhecimento_niveis/cadastro_app.py:361-389 | succeeds exactly when all fields are filled, the cleaned CPF is valid, the tier is 1-3 and the CPF as typed is new |
| Cadastro.PunctuatedSpellingNotDuplicate | reconhecimento_niveis/cadastro_app.py:366-389 | with the keys stored in clean form, a CPF already enrolled passes the duplicate check in its printed form |
| Cadastro.Enroll | reconhecimento_niveis/cadastro_app.py:354-416 | the disk after each path, with the typed CPF stored, added to its tier at most once, and the model untouched |
| AdminApp.SaveJson | reconhecimento_niveis/admin_app.py:39-49 | reports whether the write succeeded and makes no directory |
| AdminApp.AddedCount | reconhecimento_niveis/admin_app.py:78-99 | the count is the number of 's' presses with a face, and each saved photo is the frame of one of them |
| AdminApp.AddedAdvance | reconhecimento_niveis/admin_app.py:79-99 | one turn of the loop moves the capture invariant forward |
| AdminApp.CaptureLoop | reconhecimento_niveis/admin_app.py:78-102 | returns the number of photos saved and writes exactly those photos |
| AdminApp.AddPhotos | reconhecimento_niveis/admin_app.py:51-103 | rejects an unknown CPF, a missing folder, a missing cascade file or no camera; otherwise it saves the photos and leaves the model and the tables untouched |
| AdminApp.Delete | reconhecimento_niveis/admin_app.py:106-145 | after confirmation removes the folder, the first tier membership and the identity, attempts both saves, and does not invalidate the model |
| Recognition.FirstWithId | reconhecimento_niveis/app.py:236 | finds the first identity record in table order with the id; None exactly when there is none |
| Recognition.Engine.constructor | reconhecimento_niveis/app.py:197-199 | no timer, count 0, no last CPF |
| Recognition.Engine.HandleBox | reconhecimento_niveis/app.py:222-298 | the state change for one box, and the tier when it grants access |
| Recognition.Engine.Step | reconhecimento_niveis/app.py:202-301 | one frame: a read failure quits, no faces resets, boxes in order until a grant, then 'q' quits |
| Recognition.RunStep | reconhecimento_niveis/app.py:202-301 | the run from step i is that step followed by the run from step i+1 |
| Recognition.RecognizeFaces | reconhecimento_niveis/app.py:186-305 | the session ends as the frames dictate: no camera, quit, access granted for a tier, or still running |
| Recognition.NoFacesResets | reconhecimento_niveis/app.py:217-220 | a frame without faces resets timer, count and last CPF |
| Recognition.SmallBoxIgnored | reconhecimento_niveis/app.py:224-225 | a box under 80 pixels changes nothing |
| Recognition.RejectionResets | reconhecimento_niveis/app.py:292-295 | a distance of 50 or more, or a label outside the id order, resets all three variables |
| Recognition.UnknownIdKeepsLast | reconhecimento_niveis/app.py:289-291 | an id no identity has resets the timer and the count but keeps the last CPF |
| Recognition.UnauthorizedOnlyDebounces | reconhecimento_niveis/app.py:238-288 | a recognized CPF no tier lists only updates the count; the timer is kept |
| Recognition.GrantCondition | reconhecimento_niveis/app.py:263-274 | a box grants access exactly when the CPF is authorized, was matched twice in a row and the timer has run 3 s; it grants the CPF's tier |
| Recognition.NoGrantFromFreshTimer | reconhecimento_niveis/app.py:264-269 | boxes seen at the time the timer started cannot grant access |
| Recognition.NoGrantOnTimerStart | reconhecimento_niveis/app.py:263-269 | the frame that starts the timer never grants access |
| Recognition.SameFaceCounts | reconhecimento_niveis/app.py:240-244 | N frames of the same single face add N to the count (from 0 after another CPF) |
| Recognition.RunStopsAtEnd | reconhecimento_niveis/app.py:269-301 | once a frame ends the session, later frames make no difference |
| Recognition.ProcessBoxesGrantsListed | reconhecimento_niveis/app.py:248-274 | a grant within a frame is for a tier that lists a CPF as authorized |
| Recognition.RunGrantsListed | reconhecimento_niveis/app.py:248-274 | a grant within a run is for a tier that lists a CPF as authorized |
| Recognition.GrantedTierIsListed | reconhecimento_niveis/app.py:248-273 | the viewer only opens for a tier of the table that authorizes some CPF |
| Recognition.TimerCarriesOver | reconhecimento_niveis/app.py:240-269 | the timer survives a change of recognized CPF: a second person is granted without being held for 3 s |
| Training.ExtensionIgnoresCase | reconhecimento_niveis/app.py:102 | a name and its lower-case form pass the extension test together |
| Training.ExtensionExamples | reconhecimento_niveis/app.py:102 | .jpg, .JPEG and .Png pass; .txt, a bare "jpg" and ".jpg.bak" do not |
| Training.PhotoSamples | reconhecimento_niveis/app.py:101-130 | a photo passing the four filters contributes six 200x200 samples, the first its resized first face; any other photo contributes none |
| Training.PersonSampleCount | reconhecimento_niveis/app.py:101-130 | a folder contributes six samples per accepted photo |
| Training.LabelMapHas | reconhecimento_niveis/app.py:87 | every id gets a label |
| Training.LabelMapDistinctStep | reconhecimento_niveis/app.py:87 | over distinct ids the next id is appended with its position as label |
| Training.LabelMapDistinct | reconhecimento_niveis/app.py:87 | for distinct ids every id's label is its position and the saved order is the id list |
| Training.LabelInverse | reconhecimento_niveis/app.py:87 | for distinct ids, the saved order at an id's label is that id |
| Training.RepeatedIdLabel | reconhecimento_niveis/app.py:87 | a repeated id gets a label outside the saved order |
| Training.SamplesLabelled | reconhecimento_niveis/app.py:125-127 | samples and labels grow together, and each sample carries its owner's label |
| Training.LabelsInvert | reconhecimento_niveis/app.py:125-138 | for distinct ids, the saved order at any sample's label is the id the sample came from |
| Training.CollectPerson | reconhecimento_niveis/app.py:101-130 | the nested loops collect exactly the person's samples, each with the person's label |
| Training.CollectSamples | reconhecimento_niveis/app.py:75-138 | None when no sample was found, otherwise the samples, their labels and the id order |
| Training.TrainedFacts | reconhecimento_niveis/app.py:140-175 | a trained model has as many labels as samples, at least one sample and a non-empty order |
| Training.TrainAndSave | reconhecimento_niveis/app.py:140-175 | nothing changes without users or samples; otherwise the model directory and file are written and the id map saved |
| Training.FreshTrainingRecognizes | reconhecimento_niveis/app.py:338-342 | a successful fresh training always starts recognition, with its own order |
| Training.Start | reconhecimento_niveis/app.py:321-344 | without users the program ends; with both model files it loads them; otherwise it trains; recognition needs a model and a non-empty order |
| DocumentViewer.FoldersOfLevel | reconhecimento_niveis/document_viewer.py:59-64 | tier n sees exactly the folders `nivel_1` to `nivel_n`, in order |
| DocumentViewer.FoldersCumulative | reconhecimento_niveis/document_viewer.py:59-63 | a tier's folders are the first ones of the next tier up |
| DocumentViewer.OtherTiersSeeNothing | reconhecimento_niveis/document_viewer.py:64-71 | any other tier name sees no folder, gets the default greeting and no tools |
| DocumentViewer.UnknownTierSeesNothing | reconhecimento_niveis/document_viewer.py:64 | the unknown tier sees no folder and gets no tools |
| DocumentViewer.AdminToolsOnlyForTopTier | reconhecimento_niveis/document_viewer.py:108-120 | only tier 3 gets the administration tools, and it sees all three folders |
| DocumentViewer.ExistingFolders | reconhecimento_niveis/document_viewer.py:88-90 | a folder is shown exactly when it is allowed and exists |
| DocumentViewer.Show | reconhecimento_niveis/document_viewer.py:50-120 | nothing exactly when `documentos/` is missing; only allowed folders, and the tools exactly for "Nivel 3" |
| DocumentViewer.NoFolderAboveTier | reconhecimento_niveis/document_viewer.py:59-90 | tier n never shows a folder of a tier above n |

## Left out

- Windows, dialogs, overlays, colours, text and waiting times: these are user interface. A prompt
  left empty or cancelled is an empty string; a confirmation is a boolean input.
- The face detector, the image-quality detector and the LBPH classifier are foreign code. Each
  camera event carries the detector's boxes. Each recognition box carries the classifier's label
  and distance. A trained model is represented by the samples and labels it was trained on.
- Pixel arithmetic (crop, resize, rotation, brightness and noise) is foreign. These are symbolic
  image constructors that keep only the image size.
- The webcam is a finite sequence of events, and the clock is one time per frame, in whole
  seconds. `uuid4` names are inputs. A loop that runs out of events stops as on a read failure.
  In recognition that leaves the session pending.
- Recognition.Engine.Step: the `waitKey(1)` inside the timer branch (app.py:282) reads a key
  that is thrown away. Only the key read after each frame can quit.
- A frame read failure ends the recognition loop. The code then calls `sys.exit` (app.py:305),
  which is modelled as the outcome `Ended`.
- `remover_acentos` (app.py:61-71) only affects the text drawn on screen: Unicode normalisation
  is not modelled.
- `MODO_DESENVOLVEDOR` (app.py:58, 312-318) is a constant `False`, so its branch is dead.
- UtilsAdmin.QualityOk is stated in exact integer form: mean in [40, 200] and variance at least
  225. UtilsAdmin.QualityOkMeaning proves this is the same as the floating-point test, except for
  rounding error in numpy's floating-point sums. For an empty image numpy's mean is NaN and every
  comparison with it is false, so only the face test remains.
- Validation.ParseInt: `int()` is modelled for ASCII digits, ASCII and Latin-1 whitespace, a
  sign and single underscores. Other Unicode digits and whitespace are not modelled.
- Training.HasImageExtension lowercases ASCII letters only. Other letters never affect the
  `.jpg`/`.png`/`.jpeg` test.
- Training.CollectSamples: `os.listdir` order and the decoded photos are inputs (`listing`).
  They are not tied to the disk's photo entries.
- Training.TrainAndSave: the later check that the id list is empty (app.py:150-152) can never be
  reached, because an empty identity table has already ended at app.py:146. It is omitted.
- Training.Start: a model file that `reconhecedor.read` cannot parse raises an exception in the
  code. Here it is read as "no model".
- Labels are natural numbers. A negative label from the classifier, which Python would index
  from the end, is not modelled.
- The modelled exceptions are a tier record without "pessoas" when appending (`MalformedTier`),
  a failed JSON write (the `...SaveOk` inputs) and an existing photo folder in
  `cadastro_app.py` (the existing-folder branch of Cadastro.TakePhotos). All others are left
  out, for example a tier record that is not an object, or a failure between `makedirs` and
  the write.
- Validation.CheckCpf: `str.isdigit()` is modelled for the ASCII digits '0' to '9' only. Python
  also accepts other Unicode decimal and superscript digits, such as '²', '١' or '１'. So
  UtilsAdmin.ScreenEnrollment and Cadastro.Screen reject with `BadCpf` an eleven-character CPF
  containing such digits, which utils_admin.py:577 and cadastro_app.py:367 accept and store.
- The document folders' file listings (document_viewer.py:94-104) and opening a document
  (document_viewer.py:17-38) are not modelled; DocumentViewer.Show lists folders, not files.
- The buttons of each window (`criar_janela`, `criar_janela_admin`, document_viewer.py:113-120)
  only call the modelled operations.
