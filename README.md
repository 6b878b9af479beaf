# pixellab-js request/response pipeline, modelled in Dafny

This project models the core of the pixellab-js TypeScript client. Each of its eight operations follows the same pipeline:

- check the caller's parameters against a Zod schema;
- rename the validated fields into a snake_case JSON body;
- send one HTTP request with the client's bearer token;
- classify non-2xx answers into the client's error classes (`handleHttpError`);
- check a 2xx answer against a response schema and return it, images rebuilt as `Base64Image` objects.

The eight operations are `generateImagePixflux`, `generateImageBitforge`, `inpaint`, `rotate`, `animateWithText`, `animateWithSkeleton`, `estimateSkeleton` and `getBalance`.

The network is removed. An exchange with the service is a parameter: either an answer (status, status text, JSON body or none), or a transport failure. Each facade returns the request it would send together with its outcome.

Every core file is pure, so the model consists of datatypes, functions and lemmas.

## Modules

| module | file | what it models |
|---|---|---|
| `Wrappers` | wrappers.dfy | `Option` and `Result`. |
| `JsValue` | js_value.dfy | JavaScript values as the client handles them: `undefined`, `null`, booleans, numbers, strings, arrays, plain objects and `Base64Image` instances. It also models property reads, truthiness and the JSON value `JSON.stringify` writes. |
| `Zod` | zod.dfy | A small Zod: schemas as data. `Admits` (parse succeeds) and `Output` (what parse returns, defaults filled in) are defined on them. Typed readers such as `Number`, `NumberOr`, `OptionalEnum` and `ArrayOf` are proved to agree with those schemas. |
| `Types` | types.dfy | The six string unions of `types.ts` and their `z.enum` schemas. |
| `ImageSizes`, `Keypoints` | image_size.dfy, keypoint.dfy | `ImageSizeSchema`, `KeypointSchema` and the skeleton frame `{keypoints: [...]}`. |
| `Base64`, `Base64Images` | base64.dfy, base64_image.dfy | The base64 coding of section 4 of RFC 4648, as Node's `Buffer` uses it, and the `Base64Image` class with its factories, getters and schemas. |
| `Errors` | errors.dfy | The error classes and `handleHttpError`. |
| `Client` | client.dfy | `PixelLabClient`: its secret, base URL, headers and operation URLs. |
| `Pipeline` | pipeline.dfy | The shape every operation shares: parse the parameters, POST or GET, then the `try`/`catch` around the answer. |
| `Responses` | responses.dfy | The response schemas: usage, one image, a list of images, keypoints. |
| `RequestBody` | request_body.dfy | `modelDump()` and the `?.`/`\|\|` null conversions, plus `JSON.stringify` over an object literal. |
| one module per operation | generate_image_pixflux.dfy … get_balance.dfy | See the operation pattern below. |

### The operation pattern

Each operation module holds:

- a `Params` datatype of validated parameters. Defaults are filled in, and an absent optional field is `None`.
- `Validate`, the operation's `ParamsSchema.parse`, with:
  - `Read`: whatever is accepted is read field by field from the input (`Gives`);
  - `Accepted`: conversely, an input that gives in-bound parameters is accepted as exactly those.
- `RequestData` and `Body`, the `requestData` literal and the JSON object `JSON.stringify` makes of it. The lemmas about them are:
  - `KeysDistinct`: the rename is one-to-one;
  - `Renamed`: no other key reaches the body;
  - one `…Sent` lemma per key, saying under which key, and as what value, each field is sent, or that it is left out.
- the facade, built on `Pipeline.PostCall` or `Pipeline.GetCall`.
- lemmas for required fields and for the repository's test inputs.

Three behaviours of the code that the model keeps:

- A rejected parameter object throws Zod's own `ZodError`. The call to `schema.parse` sits before the `try` block, so the error is not turned into a client `ValidationError`.
- Only image fields, image lists and the bitforge skeleton frame become an explicit `null` when absent. An absent optional enum, number or string stays `undefined`, and `JSON.stringify` omits its key.
- `seed` accepts any number, because `z.number()` has no integer check.

## Model

| member | source | states |
|---|---|---|
| JsValue.Stringify | src/api/generateImagePixflux.ts:118 | The JSON value `JSON.stringify` writes: object keys whose value is `undefined` are dropped and no other, each kept key holds its value's stringified form, an array keeps its length and holds each element stringified, an `undefined` element as `null`, and the result is JSON (no `undefined`, no class instance). |
| JsValue.Utf16Length | src/api/generateImagePixflux.ts:58 | A string's `.length`, which Zod's `min` and `max` check, counts UTF-16 code units: at least one and at most two per character, exactly one each within the Basic Multilingual Plane and two each beyond it. |
| JsValue.StringifyJson | src/api/generateImagePixflux.ts:118 | A value that already is JSON is written unchanged. |
| JsValue.StringifyImageJson | src/api/generateImagePixflux.ts:118 | An image's wire object `{type, base64, format}` is written unchanged. |
| Zod.Parse | src/api/generateImagePixflux.ts:90 | `schema.parse` succeeds exactly on the values the schema admits, and what it returns parses again to itself. |
| Zod.OutputAdmitted | src/api/generateImagePixflux.ts:90 | Parsing is idempotent: a parse result is admitted again and is its own output. |
| Zod.Number | src/models/imageSize.ts:9-10 | An accepted number is the input itself, within the inclusive bounds. |
| Zod.NumberAgrees | src/models/imageSize.ts:9-10 | `Number` succeeds exactly where `z.number().min().max()` admits the value, with the same output. |
| Zod.NumberRoundTrip | src/models/imageSize.ts:9-10 | A number within the bounds is read as itself. |
| Zod.NumberOr | src/api/generateImagePixflux.ts:61 | An accepted number is the given one, or the default when absent, within the bounds. |
| Zod.NumberOrAgrees | src/api/generateImagePixflux.ts:61 | `NumberOr` succeeds exactly where `.default(d)` over the bounded number admits, with the same output. |
| Zod.NumberOrRoundTrip | src/api/generateImagePixflux.ts:61 | A number within the bounds, given or defaulted, is read as itself. |
| Zod.OptionalNumber | src/api/generateImagePixflux.ts:69 | An absent number stays absent; a present one is read as itself, within the bounds. |
| Zod.OptionalNumberAgrees | src/api/generateImagePixflux.ts:69 | `OptionalNumber` succeeds exactly where `.optional()` over the bounded number admits, with the same output. |
| Zod.OptionalNumberRoundTrip | src/api/generateImagePixflux.ts:69 | An absent number, or one within the bounds, is read as itself. |
| Zod.Text | src/api/generateImagePixflux.ts:58 | An accepted string is the input itself, its length in UTF-16 code units within the minimum and the maximum. |
| Zod.TextAgrees | src/api/generateImagePixflux.ts:58 | `Text` succeeds exactly where `z.string().min().max()` admits, lengths counted in UTF-16 code units, with the same output. |
| Zod.TextRoundTrip | src/api/generateImagePixflux.ts:58 | A string whose UTF-16 length is admitted is read as itself. |
| Zod.TextOr | src/api/generateImagePixflux.ts:60 | An accepted string is the given one, or the default when absent. |
| Zod.TextOrAgrees | src/api/generateImagePixflux.ts:60 | `TextOr` succeeds exactly where `z.string().default(d)` admits, with the same output. |
| Zod.TextOrRoundTrip | src/api/generateImagePixflux.ts:60 | A string, given or defaulted, is read as itself. |
| Zod.OptionalText | src/api/animateWithText.ts:65 | An absent string stays absent, a present one is read as itself. |
| Zod.OptionalTextAgrees | src/api/animateWithText.ts:65 | `OptionalText` succeeds exactly where `z.string().optional()` admits, with the same output. |
| Zod.OptionalTextRoundTrip | src/api/animateWithText.ts:65 | An absent or present string is read as itself. |
| Zod.BooleanOr | src/api/generateImagePixflux.ts:67 | An accepted boolean is the given one, or the default when absent. |
| Zod.BooleanOrAgrees | src/api/generateImagePixflux.ts:67 | `BooleanOr` succeeds exactly where `z.boolean().default(d)` admits, with the same output. |
| Zod.BooleanOrRoundTrip | src/api/generateImagePixflux.ts:67 | A boolean, given or defaulted, is read as itself. |
| Zod.Literal | src/models/base64Image.ts:12 | Exactly the literal string is accepted, and read as itself. |
| Zod.LiteralAgrees | src/models/base64Image.ts:12 | `Literal` succeeds exactly where `z.literal` admits, with the same output. |
| Zod.Enum | src/types.ts:57-61 | An accepted value is one of the listed strings, read as the member it names. |
| Zod.EnumAgrees | src/types.ts:57-61 | `Enum` succeeds exactly where `z.enum` admits, and the output is the input. |
| Zod.OptionalEnum | src/api/generateImagePixflux.ts:62 | An absent value stays absent; a present one must be a listed string and is read as its member. |
| Zod.OptionalEnumAgrees | src/api/generateImagePixflux.ts:62 | `OptionalEnum` succeeds exactly where `.optional()` over the enum admits, and the output is the input. |
| Zod.EnumOr | src/api/animateWithText.ts:63 | An accepted value is the given listed string, or the default when absent, read as its member. |
| Zod.EnumOrAgrees | src/api/animateWithText.ts:63 | `EnumOr` succeeds exactly where `.default(d)` over the enum admits, and the output is the input or the default. |
| Zod.ArrayOf | src/api/estimateSkeleton.ts:34 | An array is accepted exactly when every element is; the result keeps the length and holds each element's reading in order. |
| Types.ParseCameraView | src/types.ts:57-61 | A string that names a member reads as that member, whose literal is that string. |
| Types.CameraViewListed | src/types.ts:57-61 | The `CameraView` union and `CameraViewSchema` list the same 3 strings in the same order. |
| Types.CameraViewComplete | src/types.ts:4 | Every member of the union is listed. |
| Types.CameraViewRoundTrip | src/types.ts:4 | The literal of every member reads back as that member. |
| Types.CameraViewMember | src/types.ts:57-61 | The literal of a member is in the schema's list and reads back as that member. |
| Types.CameraViewAccepted | src/types.ts:57-61 | `CameraViewSchema` accepts exactly the strings that name a member, and nothing else. |
| Types.CameraViewDistinct | src/types.ts:57-61 | The 3 strings are pairwise distinct. |
| Types.ParseDirection | src/types.ts:63-72 | A string that names a member reads as that member, whose literal is that string. |
| Types.DirectionListed | src/types.ts:63-72 | The `Direction` union and `DirectionSchema` list the same 8 strings in the same order. |
| Types.DirectionComplete | src/types.ts:7-15 | Every member of the union is listed. |
| Types.DirectionRoundTrip | src/types.ts:7-15 | The literal of every member reads back as that member. |
| Types.DirectionMember | src/types.ts:63-72 | The literal of a member is in the schema's list and reads back as that member. |
| Types.DirectionAccepted | src/types.ts:63-72 | `DirectionSchema` accepts exactly the strings that name a member, and nothing else. |
| Types.DirectionDistinct | src/types.ts:63-72 | The 8 strings are pairwise distinct. |
| Types.ParseOutline | src/types.ts:74-79 | A string that names a member reads as that member, whose literal is that string. |
| Types.OutlineListed | src/types.ts:74-79 | The `Outline` union and `OutlineSchema` list the same 4 strings in the same order. |
| Types.OutlineComplete | src/types.ts:18-22 | Every member of the union is listed. |
| Types.OutlineRoundTrip | src/types.ts:18-22 | The literal of every member reads back as that member. |
| Types.OutlineMember | src/types.ts:74-79 | The literal of a member is in the schema's list and reads back as that member. |
| Types.OutlineAccepted | src/types.ts:74-79 | `OutlineSchema` accepts exactly the strings that name a member, and nothing else. |
| Types.OutlineDistinct | src/types.ts:74-79 | The 4 strings are pairwise distinct. |
| Types.ParseShading | src/types.ts:81-87 | A string that names a member reads as that member, whose literal is that string. |
| Types.ShadingListed | src/types.ts:81-87 | The `Shading` union and `ShadingSchema` list the same 5 strings in the same order. |
| Types.ShadingComplete | src/types.ts:25-30 | Every member of the union is listed. |
| Types.ShadingRoundTrip | src/types.ts:25-30 | The literal of every member reads back as that member. |
| Types.ShadingMember | src/types.ts:81-87 | The literal of a member is in the schema's list and reads back as that member. |
| Types.ShadingAccepted | src/types.ts:81-87 | `ShadingSchema` accepts exactly the strings that name a member, and nothing else. |
| Types.ShadingDistinct | src/types.ts:81-87 | The 5 strings are pairwise distinct. |
| Types.ParseDetail | src/types.ts:89-93 | A string that names a member reads as that member, whose literal is that string. |
| Types.DetailListed | src/types.ts:89-93 | The `Detail` union and `DetailSchema` list the same 3 strings in the same order. |
| Types.DetailComplete | src/types.ts:33 | Every member of the union is listed. |
| Types.DetailRoundTrip | src/types.ts:33 | The literal of every member reads back as that member. |
| Types.DetailMember | src/types.ts:89-93 | The literal of a member is in the schema's list and reads back as that member. |
| Types.DetailAccepted | src/types.ts:89-93 | `DetailSchema` accepts exactly the strings that name a member, and nothing else. |
| Types.DetailDistinct | src/types.ts:89-93 | The 3 strings are pairwise distinct. |
| Types.ParseSkeletonLabel | src/types.ts:95-114 | A string that names a member reads as that member, whose literal is that string. |
| Types.SkeletonLabelListed | src/types.ts:95-114 | The `SkeletonLabel` union and `SkeletonLabelSchema` list the same 18 strings in the same order. |
| Types.SkeletonLabelComplete | src/types.ts:36-54 | Every member of the union is listed. |
| Types.SkeletonLabelRoundTrip | src/types.ts:36-54 | The literal of every member reads back as that member. |
| Types.SkeletonLabelMember | src/types.ts:95-114 | The literal of a member is in the schema's list and reads back as that member. |
| Types.SkeletonLabelAccepted | src/types.ts:95-114 | `SkeletonLabelSchema` accepts exactly the strings that name a member, and nothing else. |
| Types.SkeletonLabelDistinct | src/types.ts:95-114 | The 18 strings are pairwise distinct. |
| Types.OptionalCameraView | src/api/generateImagePixflux.ts:65 | An accepted `view` is absent exactly when not given, and otherwise the member whose literal was given. |
| Types.OptionalCameraViewAgrees | src/api/generateImagePixflux.ts:65 | `OptionalCameraView` succeeds exactly where `CameraViewSchema.optional()` admits. |
| Types.OptionalCameraViewRoundTrip | src/api/generateImagePixflux.ts:65 | An absent `view` reads as absent, a given member as itself. |
| Types.OptionalDirection | src/api/generateImagePixflux.ts:66 | An accepted `direction` is absent exactly when not given, and otherwise the member whose literal was given. |
| Types.OptionalDirectionAgrees | src/api/generateImagePixflux.ts:66 | `OptionalDirection` succeeds exactly where `DirectionSchema.optional()` admits. |
| Types.OptionalDirectionRoundTrip | src/api/generateImagePixflux.ts:66 | An absent `direction` reads as absent, a given member as itself. |
| Types.OptionalOutline | src/api/generateImagePixflux.ts:62 | An accepted `outline` is absent exactly when not given, and otherwise the member whose literal was given. |
| Types.OptionalOutlineAgrees | src/api/generateImagePixflux.ts:62 | `OptionalOutline` succeeds exactly where `OutlineSchema.optional()` admits. |
| Types.OptionalOutlineRoundTrip | src/api/generateImagePixflux.ts:62 | An absent `outline` reads as absent, a given member as itself. |
| Types.OptionalShading | src/api/generateImagePixflux.ts:63 | An accepted `shading` is absent exactly when not given, and otherwise the member whose literal was given. |
| Types.OptionalShadingAgrees | src/api/generateImagePixflux.ts:63 | `OptionalShading` succeeds exactly where `ShadingSchema.optional()` admits. |
| Types.OptionalShadingRoundTrip | src/api/generateImagePixflux.ts:63 | An absent `shading` reads as absent, a given member as itself. |
| Types.OptionalDetail | src/api/generateImagePixflux.ts:64 | An accepted `detail` is absent exactly when not given, and otherwise the member whose literal was given. |
| Types.OptionalDetailAgrees | src/api/generateImagePixflux.ts:64 | `OptionalDetail` succeeds exactly where `DetailSchema.optional()` admits. |
| Types.OptionalDetailRoundTrip | src/api/generateImagePixflux.ts:64 | An absent `detail` reads as absent, a given member as itself. |
| Types.RequiredCameraView | src/api/animateWithSkeleton.ts:62 | An accepted `view` is the member whose literal was given; there is no default. |
| Types.RequiredCameraViewAgrees | src/api/animateWithSkeleton.ts:62 | `RequiredCameraView` succeeds exactly where `CameraViewSchema` admits. |
| Types.RequiredCameraViewRoundTrip | src/api/animateWithSkeleton.ts:62 | A given member reads as itself. |
| Types.CameraViewOr | src/api/animateWithText.ts:63 | An accepted `view` is the member given, or the default ("side" for this field) when absent. |
| Types.CameraViewOrAgrees | src/api/animateWithText.ts:63 | `CameraViewOr` succeeds exactly where `CameraViewSchema.default("side")` admits. |
| Types.CameraViewOrRoundTrip | src/api/animateWithText.ts:63 | A given member reads as itself, an absent one as the default. |
| Types.RequiredDirection | src/api/animateWithSkeleton.ts:63 | An accepted `direction` is the member whose literal was given; there is no default. |
| Types.RequiredDirectionAgrees | src/api/animateWithSkeleton.ts:63 | `RequiredDirection` succeeds exactly where `DirectionSchema` admits. |
| Types.RequiredDirectionRoundTrip | src/api/animateWithSkeleton.ts:63 | A given member reads as itself. |
| Types.DirectionOr | src/api/animateWithText.ts:64 | An accepted `direction` is the member given, or the default ("east" for this field) when absent. |
| Types.DirectionOrAgrees | src/api/animateWithText.ts:64 | `DirectionOr` succeeds exactly where `DirectionSchema.default("east")` admits. |
| Types.DirectionOrRoundTrip | src/api/animateWithText.ts:64 | A given member reads as itself, an absent one as the default. |
| ImageSizes.ParseImageSize | src/models/imageSize.ts:8-11 | An accepted size is an object whose `width` and `height` are the numbers read, both within 1..1024. |
| ImageSizes.ImageSizeAgrees | src/models/imageSize.ts:8-11 | `ParseImageSize` succeeds exactly where `ImageSizeSchema` admits, and reads what it outputs. |
| ImageSizes.ImageSizeAccepted | src/models/imageSize.ts:8-11 | A size is accepted exactly when both sides are present numbers within 1..1024, both bounds included. |
| ImageSizes.SidesRequired | src/models/imageSize.ts:9-10 | A missing side is rejected: neither side has a default. |
| ImageSizes.FractionalSideAccepted | src/models/imageSize.ts:9-10 | There is no integer constraint: 16.5 by 1 is accepted as it is. |
| ImageSizes.ImageSizeRoundTrip | src/models/imageSize.ts:8-11 | A size within the bounds parses back to itself. |
| Keypoints.ParseKeypoint | src/models/keypoint.ts:11-16 | `ParseKeypoint` succeeds exactly where `KeypointSchema` admits, and reads what it outputs. |
| Keypoints.ZIndexDefault | src/models/keypoint.ts:15 | An absent `zIndex` becomes 0; a given one is kept. |
| Keypoints.LabelRequired | src/models/keypoint.ts:14 | A keypoint is accepted only with one of the 18 skeleton labels, read as that label. |
| Keypoints.CoordinatesUnbounded | src/models/keypoint.ts:12-13 | `x` and `y` have no bounds: any coordinates with a valid label are accepted as given. |
| Keypoints.ToValueInjective | src/models/keypoint.ts:11-16 | Distinct keypoints have distinct validated objects: the wire form loses nothing. |
| Keypoints.KeypointRoundTrip | src/models/keypoint.ts:11-16 | Validating an already validated keypoint gives the same keypoint. |
| Keypoints.ParseKeypoints | src/api/estimateSkeleton.ts:34 | A keypoint list is accepted exactly where `z.array(KeypointSchema)` admits it, keeping order. |
| Keypoints.ParseSkeletonFrame | src/api/generateImageBitforge.ts:68-70 | `ParseSkeletonFrame` succeeds exactly where `SkeletonFrameSchema` admits, and reads what it outputs. |
| Keypoints.SkeletonFrameRoundTrip | src/api/generateImageBitforge.ts:68-70 | Validating an already validated frame gives the same frame, keypoint order included. |
| Keypoints.OptionalFrame | src/api/generateImageBitforge.ts:95 | An absent frame is accepted as absent; a present one must be a frame and is read as one. |
| Keypoints.OptionalFrameAgrees | src/api/generateImageBitforge.ts:95 | `OptionalFrame` succeeds exactly where `SkeletonFrameSchema.optional()` admits, with the same output. |
| Keypoints.OptionalFrameRoundTrip | src/api/generateImageBitforge.ts:95 | An absent frame reads as absent, a validated one as itself. |
| Keypoints.ParseFrames | src/api/animateWithSkeleton.ts:61 | A list of frames is accepted exactly where `z.array(SkeletonFrameSchema)` admits it, keeping order. |
| Keypoints.FramesRoundTrip | src/api/animateWithSkeleton.ts:61 | A list of validated frames reads back unchanged, frame and keypoint order included. |
| Base64.DecodeEncode | src/models/base64Image.ts:42-44 | Decoding the padded encoding of any bytes gives those bytes back (section 4 of RFC 4648). |
| Base64.Encode | src/models/base64Image.ts:27-29 | The padded encoding is empty exactly for no bytes; its length, padding and round trip are the `EncodeLength`, `EncodePadding` and `DecodeEncode` rows. |
| Base64.Decode | src/models/base64Image.ts:42-44 | The lenient decoder skips characters outside the alphabet and gives three bytes for every four that remain, so at most three bytes per four characters. |
| Base64.ByteLengthBound | src/models/base64Image.ts:55-57 | The size estimate is never below the number of bytes the text decodes to. |
| Base64.EncodeLength | src/models/base64Image.ts:27-29 | The encoding has four characters per started group of three bytes. |
| Base64.EncodePadding | src/models/base64Image.ts:27-29 | The encoding ends in "==" after one trailing byte, "=" after two, and no padding otherwise. |
| Base64.PaddedDecode | src/models/base64Image.ts:42-44 | The decoder skips trailing padding. |
| Base64.ByteLengthOfShape | src/models/base64Image.ts:55-57 | The size estimate of any text with the length and padding of an encoding of n bytes is n. |
| Base64.ByteLengthEncode | src/models/base64Image.ts:55-57 | The size estimate is exact on a canonical encoding: it is the number of bytes encoded. |
| Base64Images.Base64Image.ToJson | src/models/base64Image.ts:59-65 | `toJSON()` is `{type: "base64", base64, format}`, field for field. |
| Base64Images.Base64Image.ModelDump | src/models/base64Image.ts:68-70 | `modelDump()` is `toJSON()`. |
| Base64Images.New | src/models/base64Image.ts:22-25 | The constructor keeps the text; an omitted format becomes "png", a given one is kept. |
| Base64Images.Lower | src/models/base64Image.ts:33 | Lower-casing keeps the length and lower-cases each ASCII letter, character by character. |
| Base64Images.FormatOfExtension | src/models/base64Image.ts:33-34 | The format is the extension without its dot, lower-cased, or "png" when that is empty; it is never empty and has no upper-case letter. |
| Base64Images.FormatOfExtensionExamples | src/models/base64Image.ts:33-34 | ".PNG" gives "png", ".jpeg" gives "jpeg", "." and "" give "png". |
| Base64Images.ParseImageData | src/models/base64Image.ts:11-15 | `ParseImageData` succeeds exactly where `Base64ImageSchema` admits, and reads what it outputs (a missing format is "png"). |
| Base64Images.ResponseImageSchemaAgrees | src/api/generateImagePixflux.ts:77-81 | The response image schema, whose format is `.optional().default("png")`, accepts and outputs exactly what `Base64ImageSchema` does. |
| Base64Images.FormatFieldAgrees | src/api/generateImagePixflux.ts:80 | Because the default fills an absent format first, `.optional()` in front of it changes nothing. |
| Base64Images.TypeIsBase64 | src/models/base64Image.ts:18 | An image's `type` is the literal "base64", on the object and in its wire form. |
| Base64Images.FromDataToJson | src/models/base64Image.ts:38-40 | `fromData(img.toJSON())` is `img`, and `fromData(d).toJSON()` is `d`. |
| Base64Images.StringifyImage | src/models/base64Image.ts:59-65 | `JSON.stringify` writes an image object as its `modelDump()`. |
| Base64Images.Instance | src/api/estimateSkeleton.ts:30 | `z.instanceof(Base64Image)` accepts only an image object, kept as it is. |
| Base64Images.InstanceRoundTrip | src/api/estimateSkeleton.ts:30 | An image object is read as itself. |
| Base64Images.OptionalInstance | src/api/generateImagePixflux.ts:70 | An accepted optional image is absent exactly when not given, and otherwise the given object. |
| Base64Images.OptionalInstanceAgrees | src/api/generateImagePixflux.ts:70 | `OptionalInstance` succeeds exactly where `z.instanceof(Base64Image).optional()` admits. |
| Base64Images.OptionalInstanceRoundTrip | src/api/generateImagePixflux.ts:70 | An absent or present image is read as itself. |
| Base64Images.NullableInstance | src/api/animateWithText.ts:70 | An accepted list entry is empty exactly when it is `null`, and otherwise the given object. |
| Base64Images.NullableInstanceAgrees | src/api/animateWithText.ts:70 | `NullableInstance` succeeds exactly where `z.instanceof(Base64Image).nullable()` admits. |
| Base64Images.OptionalInstances | src/api/animateWithSkeleton.ts:68 | An accepted list is absent exactly when not given; a given one has the same length and the same objects in order. |
| Base64Images.OptionalInstancesAgrees | src/api/animateWithSkeleton.ts:68 | `OptionalInstances` succeeds exactly where `z.array(z.instanceof(Base64Image)).optional()` admits. |
| Base64Images.OptionalInstancesRoundTrip | src/api/animateWithSkeleton.ts:68 | An absent list reads as absent, a list of images as itself. |
| Base64Images.OptionalNullableInstances | src/api/animateWithText.ts:70 | An accepted list is absent exactly when not given; a given one keeps its length, its `null` places and its objects in order. |
| Base64Images.OptionalNullableInstancesAgrees | src/api/animateWithText.ts:70 | `OptionalNullableInstances` succeeds exactly where `z.array(z.instanceof(Base64Image).nullable()).optional()` admits. |
| Base64Images.OptionalNullableInstancesRoundTrip | src/api/animateWithText.ts:70 | An absent list reads as absent, a list of images and `null` gaps as itself. |
| Base64Images.FromBuffer | src/models/base64Image.ts:27-29 | `fromBuffer(b, f).toBuffer()` is `b` and its `size` is the number of bytes of `b`; the format is `f`, or "png" when omitted. |
| Base64Images.FromFile | src/models/base64Image.ts:31-36 | `fromFile` keeps the file's bytes: `toBuffer()` gives them back and `size` counts them; the format is never empty, and is "png" for a path without an extension. |
| Base64Images.FromData | src/models/base64Image.ts:38-40 | `fromData(d).toJSON()` is `d` (the other direction is the `FromDataToJson` row). |
| Base64Images.Base64Image.ToBuffer | src/models/base64Image.ts:42-44 | `toBuffer()` gives at most three bytes for every four characters of the text; on the output of `fromBuffer` and `fromFile` it gives their bytes back (those rows). |
| Base64Images.Base64Image.DataUrl | src/models/base64Image.ts:51-53 | The `dataUrl` is 19 characters plus the format and the text, and ends with the base64 text; the `DataUrlRoundTrip` row reads the whole URL back. |
| Base64Images.Base64Image.Size | src/models/base64Image.ts:55-57 | The `size` estimate is never below the length of `toBuffer()` and at most three quarters of the text's length; it is exact on the output of `fromBuffer` and `fromFile`. It counts characters, where `Buffer.byteLength` counts UTF-16 units; the two differ only for text beyond the Basic Multilingual Plane, which is never valid base64. |
| Base64Images.DataUrlRoundTrip | src/models/base64Image.ts:51-53 | The `dataUrl` reads back as media type "image/<format>" and the base64 text, for a format without a comma. |
| Errors.HandleHttpErrorAsWritten | src/errors.ts:48-71 | As written, the handler throws a `TypeError` exactly when the body is JSON `null`, and otherwise a client error whose message is truthy and whose class follows the status as in `Classify`. |
| Errors.HandleHttpError | src/errors.ts:48-71 | The corrected handler always throws a client error: its message is truthy, its class follows the status as in `Classify`, and a body that is not JSON or is JSON `null` gives the status line as message (see the `MessagePrecedence` and `ClassifiedByStatus` rows). |
| Errors.ErrorMessage | src/errors.ts:56-59 | The message is always truthy: the body's `detail`, its `message`, or the status line. |
| Errors.Classify | src/errors.ts:61-70 | The error built carries the message it was given; 401 exactly gives an `AuthenticationError`, 422 exactly a `ValidationError` without schema details, 429 exactly a `RateLimitError`, and every other status an `HttpError` carrying that status. |
| Errors.ClassifiedByStatus | src/errors.ts:14-70 | 401, 422 and 429 give an `AuthenticationError`, a `ValidationError` without schema details and a `RateLimitError`, each with its code and name; every other status gives an `HttpError` carrying that status (of the corrected handler, which every operation uses; as written a JSON `null` body throws a `TypeError` instead). |
| Errors.MessagePrecedence | src/errors.ts:49-59 | A truthy `detail` wins over a truthy `message`, which wins over "HTTP <status>: <statusText>"; a body that is not JSON gives the status line, and so does a JSON `null` body in the corrected handler (as written it throws a `TypeError`). |
| Errors.TypeErrorExactlyOnNull | src/errors.ts:49-57 | As written, `handleHttpError` throws a `TypeError` exactly when the body is JSON `null`. |
| Errors.StatusLineCarriesStatus | src/errors.ts:59 | The status line is "HTTP ", the status in decimal (which reads back as the status), ": " and the status text. |
| Errors.CorrectedAgrees | src/errors.ts:48-71 | On every body except JSON `null`, the code as written and the corrected version throw the same client error. |
| Errors.NullBodyThrowsTypeError | src/errors.ts:49-57 | A 500 whose body is JSON `null` throws a `TypeError` as written; the corrected version throws `HttpError("HTTP 500: Internal Server Error", 500)`. |
| Errors.RateLimitedWithDetail | src/errors.ts:56-67 | A 429 whose body is `{detail: "slow down"}` becomes `RateLimitError("slow down")` with code "RATE_LIMIT_ERROR". |
| Client.PixelLabClient.Headers | src/client.ts:30-34 | `headers()` holds the single key `Authorization`. |
| Client.PixelLabClient.Url | src/api/generateImagePixflux.ts:112 | An operation's URL is the base URL followed by the operation's path, with nothing between them. |
| Client.New | src/client.ts:15-18 | The client keeps the secret; an omitted base URL becomes "https://api.pixellab.ai/v1", a given one is kept. |
| Client.BearerToken | src/client.ts:30-34 | A token is read exactly from a value of the form "Bearer " followed by the token (section 2.1 of RFC 6750); any other value has none. |
| Client.HeadersCarrySecret | src/client.ts:30-34 | The `Authorization` value is a bearer token (section 2.1 of RFC 6750) that reads back as the secret. |
| Client.DefaultClientHeaders | src/client.ts:15-34 | `new PixelLabClient("test-secret")` sends "Bearer test-secret" to "https://api.pixellab.ai/v1/balance" for the balance. |
| Pipeline.PostRequest | src/api/generateImagePixflux.ts:112-119 | A POST to the operation's URL whose headers are exactly the client's `Authorization` and `Content-Type: application/json`, and whose body is the stringified request data. |
| Pipeline.GetRequest | src/api/getBalance.ts:20-23 | A GET to the operation's URL with exactly the client's headers and no body. |
| Pipeline.Receive | src/api/generateImagePixflux.ts:111-138 | A transport failure passes through; a non-2xx status throws the corrected `handleHttpError`'s error (see `ReceiveAsWritten`); a 2xx body that is not JSON fails; a JSON body is returned as parsed, or becomes `ValidationError("Response validation failed")` with schema details. |
| Pipeline.ReceiveAsWritten | src/api/generateImagePixflux.ts:121-123 | A non-2xx answer throws exactly what `handleHttpError` as written throws, except for a JSON `null` body, where the code as written throws a `TypeError` and the model the error of the status line. |
| Pipeline.PostCall | src/api/generateImagePixflux.ts:90-138 | Rejected parameters throw the raw `ZodError` and nothing is sent; otherwise the request of the validated parameters is sent and its answer read by `Receive` (error answers through the corrected handler). |
| Pipeline.GetCall | src/api/getBalance.ts:19-38 | With no parameters, the GET request is always sent and its answer read by `Receive` (error answers through the corrected handler). |
| Pipeline.ReceiveNeverRawZodError | src/api/generateImagePixflux.ts:132-137 | No raw `ZodError` leaves the `try` block: a response schema failure is always wrapped. |
| Pipeline.WrappedExactlyOnResponseFailure | src/api/generateImagePixflux.ts:121-137 | A `ValidationError` with schema details is thrown exactly when a 2xx JSON body fails the response schema (a 422 gives one without details). |
| Pipeline.ZodErrorOnlyFromInput | src/api/generateImagePixflux.ts:90-111 | A call ends in the raw `ZodError` exactly when its parameters were rejected, which happens before the `try` block. |
| Pipeline.PostBodyIsJson | src/api/generateImagePixflux.ts:118 | The body sent for request data that is an object is JSON: no `undefined` and no class instance is left in it. |
| Responses.ParseUsd | src/api/getBalance.ts:11-14 | `ParseUsd` succeeds exactly where the usage schema admits, and reads what it outputs. |
| Responses.UsdAccepted | src/api/getBalance.ts:11-14 | The `type` must be the literal "usd" and `usd` a number; the amount is kept. |
| Responses.UsdRoundTrip | src/api/getBalance.ts:11-14 | An amount written as `{type: "usd", usd}` reads back unchanged. |
| Responses.ParseResponseImage | src/api/generateImagePixflux.ts:77-81 | `ParseResponseImage` succeeds exactly where the response image schema admits, and reads what it outputs. |
| Responses.ResponseImageAccepted | src/api/generateImagePixflux.ts:77-81 | A response image has `type` "base64" and a string `base64`, which is kept; an absent format is "png", a given one is kept. |
| Responses.ImageDataRoundTrip | src/api/generateImagePixflux.ts:77-81 | A valid response image reads back unchanged. |
| Responses.ParseImageResponse | src/api/generateImagePixflux.ts:76-83 | `ParseImageResponse` succeeds exactly where the `{image, usage}` schema admits, and reads what it outputs. |
| Responses.ImageResponseRoundTrip | src/api/generateImagePixflux.ts:76-83 | A valid single-image body reads back unchanged. |
| Responses.ParseImageList | src/api/animateWithText.ts:79-83 | An image list succeeds exactly where `z.array` of the image schema admits, in order. |
| Responses.ParseImagesResponse | src/api/animateWithText.ts:78-85 | `ParseImagesResponse` succeeds exactly where the `{images, usage}` schema admits, and reads what it outputs. |
| Responses.ImagesResponseInOrder | src/api/animateWithText.ts:79-83 | Every image of an accepted list is valid, and the images keep their order and number. |
| Responses.ParseSkeletonResponse | src/api/estimateSkeleton.ts:33-36 | `ParseSkeletonResponse` succeeds exactly where the `{keypoints, usage}` schema admits, and reads what it outputs. |
| Responses.SkeletonResponseAccepted | src/api/estimateSkeleton.ts:33-36 | Every keypoint of an accepted answer is valid, and the keypoints keep their order and number. |
| Responses.ImageResultOf | src/api/generateImagePixflux.ts:128-131 | The returned image is `fromData` of the parsed one (its `toJSON()` gives it back); the usage is passed on. |
| Responses.ImagesResultOf | src/api/animateWithText.ts:139-142 | The returned images are `fromData` of the parsed ones, same number and order; the usage is passed on. |
| Responses.ParseImageResult | src/api/generateImagePixflux.ts:126-131 | A single-image body is returned exactly when the response schema admits it, as `ImageResultOf` its parsed form. |
| Responses.ParseImagesResult | src/api/animateWithText.ts:137-142 | An animation body is returned exactly when the response schema admits it, as `ImagesResultOf` its parsed form. |
| RequestBody.Dump | src/models/base64Image.ts:68-70 | `modelDump()` of an image is its JSON wire object `{type, base64, format}`. |
| RequestBody.DumpOrNull | src/api/generateImagePixflux.ts:105 | An absent image becomes `null`, a present one its wire object (an object is truthy). |
| RequestBody.DumpEach | src/api/animateWithText.ts:114 | Mapping `img?.modelDump() \|\| null` keeps the length, the order and the `null` places. |
| RequestBody.DumpEachOrNull | src/api/animateWithText.ts:110-112 | An absent list becomes `null`; a given one, even empty, is mapped element by element. |
| RequestBody.DumpAllOrNull | src/api/animateWithSkeleton.ts:101-103 | An absent list becomes `null`; a given one becomes the wire objects of its images, in order. |
| RequestBody.FrameOrNull | src/api/generateImageBitforge.ts:137 | An absent frame becomes `null`, a present one its validated object. |
| RequestBody.Sent | src/api/generateImagePixflux.ts:92-118 | Over an object literal with distinct keys, `JSON.stringify` writes a key with its value exactly when that value is not `undefined`. |
| RequestBody.SentKeys | src/api/generateImagePixflux.ts:92-118 | `JSON.stringify` of an object literal writes no key that the literal does not have. |
| EstimateSkeleton.Validate | src/api/estimateSkeleton.ts:29-31 | The parameters are accepted exactly when they are an object whose `image` is an image object, which is read as that image. |
| EstimateSkeleton.Accepted | src/api/estimateSkeleton.ts:29-31 | An object holding an image object under `image` is accepted as that image, whatever else it holds. |
| EstimateSkeleton.RequestData | src/api/estimateSkeleton.ts:45-47 | The `requestData` literal is a JSON object with the single key `image`. |
| EstimateSkeleton.Body | src/api/estimateSkeleton.ts:56 | `JSON.stringify(requestData)` has the single key `image`, holding JSON (its value is the `BodyIsImage` row). |
| EstimateSkeleton.BodyIsImage | src/api/estimateSkeleton.ts:45-47 | The body is exactly `{image: {type: "base64", base64, format}}`. |
| EstimateSkeleton.EstimateSkeleton | src/api/estimateSkeleton.ts:43-72 | Invalid parameters throw the raw `ZodError` and nothing is sent; otherwise one POST to the base URL plus `/estimate-skeleton` carries the body, and the answer is read as `{keypoints, usage}`, error answers through the corrected handler. |
| EstimateSkeleton.AnswerRead | src/api/estimateSkeleton.ts:49-72 | For an image sent: a non-2xx status throws what the corrected `handleHttpError` throws, a valid 2xx body is returned as parsed, an invalid one becomes the wrapped `ValidationError`. |
| EstimateSkeleton.KeypointsReturned | src/api/estimateSkeleton.ts:63-66 | A keypoint answer is returned unchanged, keypoint order and `zIndex` values included. |
| GetBalance.GetBalance | src/api/getBalance.ts:18-38 | A GET to the base URL plus `/balance` with only the client's headers and no body; the answer is read as `{type: "usd", usd}`, error answers through the corrected handler. |
| GetBalance.TwelveFifty | src/api/getBalance.ts:29-32 | A 2xx answer `{type: "usd", usd: 12.5}` is returned unchanged. |
| GetBalance.BalanceRead | src/api/getBalance.ts:29-37 | A 2xx answer is returned exactly when its `type` is "usd" and `usd` a number, with that amount; otherwise it becomes the wrapped `ValidationError`. |
| GetBalance.ErrorStatusClassified | src/api/getBalance.ts:25-27 | A non-2xx answer throws what the corrected `handleHttpError` throws, whatever its body; as written a JSON `null` body throws a `TypeError` (`Pipeline.ReceiveAsWritten`). |
| GenerateImagePixflux.Validate | src/api/generateImagePixflux.ts:58-73 | A successful parse yields parameters within every bound of the schema, required fields present (`Valid`); with `Read` and `Accepted` it succeeds exactly on objects that give such parameters. |
| GenerateImagePixflux.Read | src/api/generateImagePixflux.ts:58-73 | Whatever the schema accepts is read field by field from the input: given values as they are, absent optional fields absent, absent defaulted fields at their defaults (`Gives`). |
| GenerateImagePixflux.Accepted | src/api/generateImagePixflux.ts:58-73 | Conversely, an object that gives in-bound parameters is accepted and parsed into exactly those parameters. |
| GenerateImagePixflux.RequestData | src/api/generateImagePixflux.ts:93-108 | The `requestData` literal is an object with exactly its listed snake_case keys; `SentAt` and the `…Sent` rows give the value under each key. |
| GenerateImagePixflux.Body | src/api/generateImagePixflux.ts:118 | `JSON.stringify(requestData)` keeps a key exactly when its value in the literal is not `undefined`; `SentAt` and the `…Sent` rows give the value written under each key. |
| GenerateImagePixflux.KeysDistinct | src/api/generateImagePixflux.ts:93-108 | The camelCase-to-snake_case rename of the request literal is one-to-one: no key is written twice. |
| GenerateImagePixflux.SentAt | src/api/generateImagePixflux.ts:93-108 | A key of the request literal is in the JSON body, with its value, exactly when that value is not `undefined`. |
| GenerateImagePixflux.Renamed | src/api/generateImagePixflux.ts:93-108 | The JSON body holds no key other than the literal's snake_case names. |
| GenerateImagePixflux.DescriptionSent | src/api/generateImagePixflux.ts:93 | The description is always sent under `description`. |
| GenerateImagePixflux.ImageSizeSent | src/api/generateImagePixflux.ts:94 | The size is always sent under `image_size`, as the validated `{width, height}`. |
| GenerateImagePixflux.NegativeDescriptionSent | src/api/generateImagePixflux.ts:95 | The negative description, "" by default, is always sent under `negative_description`. |
| GenerateImagePixflux.TextGuidanceScaleSent | src/api/generateImagePixflux.ts:96 | The text guidance scale, 8 by default, is always sent under `text_guidance_scale`. |
| GenerateImagePixflux.OutlineSent | src/api/generateImagePixflux.ts:97 | `outline` is left out of the body when absent, and sent as its literal otherwise. |
| GenerateImagePixflux.ShadingSent | src/api/generateImagePixflux.ts:98 | `shading` is left out of the body when absent, and sent as its literal otherwise. |
| GenerateImagePixflux.DetailSent | src/api/generateImagePixflux.ts:99 | `detail` is left out of the body when absent, and sent as its literal otherwise. |
| GenerateImagePixflux.ViewSent | src/api/generateImagePixflux.ts:100 | `view` is left out of the body when absent, and sent as its literal otherwise. |
| GenerateImagePixflux.DirectionSent | src/api/generateImagePixflux.ts:101 | `direction` is left out of the body when absent, and sent as its literal otherwise. |
| GenerateImagePixflux.IsometricSent | src/api/generateImagePixflux.ts:102 | The isometric flag, false by default, is always sent under `isometric`. |
| GenerateImagePixflux.NoBackgroundSent | src/api/generateImagePixflux.ts:103 | The no-background flag, false by default, is always sent under `no_background`. |
| GenerateImagePixflux.CoveragePercentageSent | src/api/generateImagePixflux.ts:104 | `coverage_percentage` is left out of the body when absent, and sent as given otherwise. |
| GenerateImagePixflux.InitImageSent | src/api/generateImagePixflux.ts:105 | An absent init image is sent as `null`, a present one as its wire form. |
| GenerateImagePixflux.InitImageStrengthSent | src/api/generateImagePixflux.ts:106 | The init image strength, 300 by default, is always sent under `init_image_strength`. |
| GenerateImagePixflux.ColorImageSent | src/api/generateImagePixflux.ts:107 | An absent color image is sent as `null`, a present one as its wire form. |
| GenerateImagePixflux.SeedSent | src/api/generateImagePixflux.ts:108 | The seed, 0 by default, is always sent under `seed`. |
| GenerateImagePixflux.GenerateImagePixflux | src/api/generateImagePixflux.ts:90-138 | Invalid parameters throw the raw `ZodError` and nothing is sent; otherwise one POST to the base URL plus `/generate-image-pixflux` carries the JSON body of the validated parameters, and the answer is read by `Pipeline.Receive` into `{image, usage}`, the image rebuilt by `fromData`, error answers through the corrected handler. |
| GenerateImagePixflux.TestParamsAccepted | tests/generateImagePixflux.test.ts:11-16 | The test parameters are accepted, with the defaults filled in. |
| GenerateImagePixflux.TestBody | tests/generateImagePixflux.test.ts:11-16 | The body of the test request: text guidance 8, no background false, seed 0, an empty negative description, no images. |
| GenerateImagePixflux.BadSizeNotSent | src/api/generateImagePixflux.ts:59 | Parameters whose size is rejected (a width of 0, say) throw the raw `ZodError` before any request is made. |
| GenerateImagePixflux.AstralDescriptionNotSent | src/api/generateImagePixflux.ts:58 | The maximum of 1000 counts UTF-16 code units: a description of 600 copies of U+1F600, which lies beyond the Basic Multilingual Plane, is 1200 units long, so it throws the raw `ZodError` and nothing is sent. |
| GenerateImageBitforge.Validate | src/api/generateImageBitforge.ts:73-96 | A successful parse yields parameters within every bound of the schema, required fields present (`Valid`); with `Read` and `Accepted` it succeeds exactly on objects that give such parameters. |
| GenerateImageBitforge.Read | src/api/generateImageBitforge.ts:73-96 | Whatever the schema accepts is read field by field from the input: given values as they are, absent optional fields absent, absent defaulted fields at their defaults (`Gives`). |
| GenerateImageBitforge.Accepted | src/api/generateImageBitforge.ts:73-96 | Conversely, an object that gives in-bound parameters is accepted and parsed into exactly those parameters. |
| GenerateImageBitforge.RequestData | src/api/generateImageBitforge.ts:116-139 | The `requestData` literal is an object with exactly its listed snake_case keys; `SentAt` and the `…Sent` rows give the value under each key. |
| GenerateImageBitforge.Body | src/api/generateImageBitforge.ts:149 | `JSON.stringify(requestData)` keeps a key exactly when its value in the literal is not `undefined`; `SentAt` and the `…Sent` rows give the value written under each key. |
| GenerateImageBitforge.KeysDistinct | src/api/generateImageBitforge.ts:116-139 | The camelCase-to-snake_case rename of the request literal is one-to-one: no key is written twice. |
| GenerateImageBitforge.SentAt | src/api/generateImageBitforge.ts:116-139 | A key of the request literal is in the JSON body, with its value, exactly when that value is not `undefined`. |
| GenerateImageBitforge.Renamed | src/api/generateImageBitforge.ts:116-139 | The JSON body holds no key other than the literal's snake_case names. |
| GenerateImageBitforge.DescriptionSent | src/api/generateImageBitforge.ts:116 | The description is always sent under `description`. |
| GenerateImageBitforge.ImageSizeSent | src/api/generateImageBitforge.ts:117 | The size is always sent under `image_size`, as the validated `{width, height}`. |
| GenerateImageBitforge.NegativeDescriptionSent | src/api/generateImageBitforge.ts:118 | The negative description, "" by default, is always sent under `negative_description`. |
| GenerateImageBitforge.TextGuidanceScaleSent | src/api/generateImageBitforge.ts:119 | The text guidance scale, 3 by default, is always sent under `text_guidance_scale`. |
| GenerateImageBitforge.ExtraGuidanceScaleSent | src/api/generateImageBitforge.ts:120 | The extra guidance scale, 3 by default, is always sent under `extra_guidance_scale`. |
| GenerateImageBitforge.StyleStrengthSent | src/api/generateImageBitforge.ts:121 | The style strength, 0 by default, is always sent under `style_strength`. |
| GenerateImageBitforge.OutlineSent | src/api/generateImageBitforge.ts:122 | `outline` is left out of the body when absent, and sent as its literal otherwise. |
| GenerateImageBitforge.ShadingSent | src/api/generateImageBitforge.ts:123 | `shading` is left out of the body when absent, and sent as its literal otherwise. |
| GenerateImageBitforge.DetailSent | src/api/generateImageBitforge.ts:124 | `detail` is left out of the body when absent, and sent as its literal otherwise. |
| GenerateImageBitforge.ViewSent | src/api/generateImageBitforge.ts:125 | `view` is left out of the body when absent, and sent as its literal otherwise. |
| GenerateImageBitforge.DirectionSent | src/api/generateImageBitforge.ts:126 | `direction` is left out of the body when absent, and sent as its literal otherwise. |
| GenerateImageBitforge.IsometricSent | src/api/generateImageBitforge.ts:127 | The isometric flag, false by default, is always sent under `isometric`. |
| GenerateImageBitforge.ObliqueProjectionSent | src/api/generateImageBitforge.ts:128 | The oblique projection flag, false by default, is always sent under `oblique_projection`. |
| GenerateImageBitforge.NoBackgroundSent | src/api/generateImageBitforge.ts:129 | The no-background flag, false by default, is always sent under `no_background`. |
| GenerateImageBitforge.CoveragePercentageSent | src/api/generateImageBitforge.ts:130 | `coverage_percentage` is left out of the body when absent, and sent as given otherwise. |
| GenerateImageBitforge.InitImageSent | src/api/generateImageBitforge.ts:131 | An absent init image is sent as `null`, a present one as its wire form. |
| GenerateImageBitforge.InitImageStrengthSent | src/api/generateImageBitforge.ts:132 | The init image strength, 300 by default, is always sent under `init_image_strength`. |
| GenerateImageBitforge.StyleImageSent | src/api/generateImageBitforge.ts:133 | An absent style image is sent as `null`, a present one as its wire form. |
| GenerateImageBitforge.InpaintingImageSent | src/api/generateImageBitforge.ts:134 | An absent inpainting image is sent as `null`, a present one as its wire form. |
| GenerateImageBitforge.MaskImageSent | src/api/generateImageBitforge.ts:135 | An absent mask image is sent as `null`, a present one as its wire form. |
| GenerateImageBitforge.ColorImageSent | src/api/generateImageBitforge.ts:136 | An absent color image is sent as `null`, a present one as its wire form. |
| GenerateImageBitforge.SkeletonKeypointsSent | src/api/generateImageBitforge.ts:137 | An absent frame is sent as `null`; a present one as the single object `{keypoints: [...]}`, keypoints in order. |
| GenerateImageBitforge.SkeletonGuidanceScaleSent | src/api/generateImageBitforge.ts:138 | The skeleton guidance scale, 1 by default, is always sent under `skeleton_guidance_scale`. |
| GenerateImageBitforge.SeedSent | src/api/generateImageBitforge.ts:139 | The seed, 0 by default, is always sent under `seed`. |
| GenerateImageBitforge.GenerateImageBitforge | src/api/generateImageBitforge.ts:113-168 | Invalid parameters throw the raw `ZodError` and nothing is sent; otherwise one POST to the base URL plus `/generate-image-bitforge` carries the JSON body of the validated parameters, and the answer is read by `Pipeline.Receive` into `{image, usage}`, the image rebuilt by `fromData`, error answers through the corrected handler. |
| GenerateImageBitforge.TestParamsAccepted | tests/generateImageBitforge.test.ts:26-35 | The test parameters are accepted, with the defaults filled in. |
| GenerateImageBitforge.TestBody | tests/generateImageBitforge.test.ts:26-35 | The body of the test request: the four images as their wire forms, init strength 250, no background true, the guidance scales at their defaults and no skeleton frame. |
| GenerateImageBitforge.FrameListNotSent | src/api/generateImageBitforge.ts:95 | A list of frames where one frame is expected is rejected before any request is made. |
| GenerateImageBitforge.AstralDescriptionNotSent | src/api/generateImageBitforge.ts:73 | The maximum of 1000 counts UTF-16 code units: a description of 600 copies of U+1F600, which lies beyond the Basic Multilingual Plane, is 1200 units long, so it throws the raw `ZodError` and nothing is sent. |
| Inpaint.Validate | src/api/inpaint.ts:61-79 | A successful parse yields parameters within every bound of the schema, required fields present (`Valid`); with `Read` and `Accepted` it succeeds exactly on objects that give such parameters. |
| Inpaint.Read | src/api/inpaint.ts:61-79 | Whatever the schema accepts is read field by field from the input: given values as they are, absent optional fields absent, absent defaulted fields at their defaults (`Gives`). |
| Inpaint.Accepted | src/api/inpaint.ts:61-79 | Conversely, an object that gives in-bound parameters is accepted and parsed into exactly those parameters. |
| Inpaint.RequestData | src/api/inpaint.ts:99-117 | The `requestData` literal is an object with exactly its listed snake_case keys; `SentAt` and the `…Sent` rows give the value under each key. |
| Inpaint.Body | src/api/inpaint.ts:127 | `JSON.stringify(requestData)` keeps a key exactly when its value in the literal is not `undefined`; `SentAt` and the `…Sent` rows give the value written under each key. |
| Inpaint.KeysDistinct | src/api/inpaint.ts:99-117 | The camelCase-to-snake_case rename of the request literal is one-to-one: no key is written twice. |
| Inpaint.SentAt | src/api/inpaint.ts:99-117 | A key of the request literal is in the JSON body, with its value, exactly when that value is not `undefined`. |
| Inpaint.Renamed | src/api/inpaint.ts:99-117 | The JSON body holds no key other than the literal's snake_case names. |
| Inpaint.DescriptionSent | src/api/inpaint.ts:99 | The description is always sent under `description`. |
| Inpaint.ImageSizeSent | src/api/inpaint.ts:100 | The size is always sent under `image_size`, as the validated `{width, height}`. |
| Inpaint.NegativeDescriptionSent | src/api/inpaint.ts:101 | The negative description, "" by default, is always sent under `negative_description`. |
| Inpaint.TextGuidanceScaleSent | src/api/inpaint.ts:102 | The text guidance scale, 3 by default, is always sent under `text_guidance_scale`. |
| Inpaint.ExtraGuidanceScaleSent | src/api/inpaint.ts:103 | The extra guidance scale, 3 by default, is always sent under `extra_guidance_scale`. |
| Inpaint.OutlineSent | src/api/inpaint.ts:104 | `outline` is left out of the body when absent, and sent as its literal otherwise. |
| Inpaint.ShadingSent | src/api/inpaint.ts:105 | `shading` is left out of the body when absent, and sent as its literal otherwise. |
| Inpaint.DetailSent | src/api/inpaint.ts:106 | `detail` is left out of the body when absent, and sent as its literal otherwise. |
| Inpaint.ViewSent | src/api/inpaint.ts:107 | `view` is left out of the body when absent, and sent as its literal otherwise. |
| Inpaint.DirectionSent | src/api/inpaint.ts:108 | `direction` is left out of the body when absent, and sent as its literal otherwise. |
| Inpaint.IsometricSent | src/api/inpaint.ts:109 | The isometric flag, false by default, is always sent under `isometric`. |
| Inpaint.ObliqueProjectionSent | src/api/inpaint.ts:110 | The oblique projection flag, false by default, is always sent under `oblique_projection`. |
| Inpaint.NoBackgroundSent | src/api/inpaint.ts:111 | The no-background flag, false by default, is always sent under `no_background`. |
| Inpaint.InitImageSent | src/api/inpaint.ts:112 | An absent init image is sent as `null`, a present one as its wire form. |
| Inpaint.InitImageStrengthSent | src/api/inpaint.ts:113 | The init image strength, 300 by default, is always sent under `init_image_strength`. |
| Inpaint.InpaintingImageSent | src/api/inpaint.ts:114 | The inpainting image is always sent under `inpainting_image`, as its wire form and never `null`. |
| Inpaint.MaskImageSent | src/api/inpaint.ts:115 | The mask image is always sent under `mask_image`, as its wire form and never `null`. |
| Inpaint.ColorImageSent | src/api/inpaint.ts:116 | An absent color image is sent as `null`, a present one as its wire form. |
| Inpaint.SeedSent | src/api/inpaint.ts:117 | The seed, 0 by default, is always sent under `seed`. |
| Inpaint.Inpaint | src/api/inpaint.ts:96-146 | Invalid parameters throw the raw `ZodError` and nothing is sent; otherwise one POST to the base URL plus `/inpaint` carries the JSON body of the validated parameters, and the answer is read by `Pipeline.Receive` into `{image, usage}`, the image rebuilt by `fromData`, error answers through the corrected handler. |
| Inpaint.MaskRequired | src/api/inpaint.ts:64 | Parameters without a mask image throw the raw `ZodError` before any request is made. |
| Inpaint.InpaintingImageRequired | src/api/inpaint.ts:63 | Parameters without an inpainting image throw the raw `ZodError` before any request is made. |
| Inpaint.EmptyDescriptionRejected | src/api/inpaint.ts:61 | An empty description is rejected before any request is made (there is no upper bound on its length). |
| Inpaint.TestParamsAccepted | src/api/inpaint.ts:61-79 | The required fields alone are accepted, with the defaults filled in. |
| Inpaint.TestBody | src/api/inpaint.ts:99-117 | Their body: both required images as wire objects, no init or color image, the defaults for the scales, strength and seed, and no enums. |
| Rotate.Validate | src/api/rotate.ts:58-73 | A successful parse yields parameters within every bound of the schema, required fields present (`Valid`); with `Read` and `Accepted` it succeeds exactly on objects that give such parameters. |
| Rotate.Read | src/api/rotate.ts:58-73 | Whatever the schema accepts is read field by field from the input: given values as they are, absent optional fields absent, absent defaulted fields at their defaults (`Gives`). |
| Rotate.Accepted | src/api/rotate.ts:58-73 | Conversely, an object that gives in-bound parameters is accepted and parsed into exactly those parameters. |
| Rotate.RequestData | src/api/rotate.ts:93-108 | The `requestData` literal is an object with exactly its listed snake_case keys; `SentAt` and the `…Sent` rows give the value under each key. |
| Rotate.Body | src/api/rotate.ts:118 | `JSON.stringify(requestData)` keeps a key exactly when its value in the literal is not `undefined`; `SentAt` and the `…Sent` rows give the value written under each key. |
| Rotate.KeysDistinct | src/api/rotate.ts:93-108 | The camelCase-to-snake_case rename of the request literal is one-to-one: no key is written twice. |
| Rotate.SentAt | src/api/rotate.ts:93-108 | A key of the request literal is in the JSON body, with its value, exactly when that value is not `undefined`. |
| Rotate.Renamed | src/api/rotate.ts:93-108 | The JSON body holds no key other than the literal's snake_case names. |
| Rotate.ImageSizeSent | src/api/rotate.ts:93 | The size is always sent under `image_size`, as the validated `{width, height}`. |
| Rotate.ImageGuidanceScaleSent | src/api/rotate.ts:94 | The image guidance scale, 3 by default, is always sent under `image_guidance_scale`. |
| Rotate.FromViewSent | src/api/rotate.ts:95 | `from_view` is left out of the body when absent, and sent as its literal otherwise. |
| Rotate.ToViewSent | src/api/rotate.ts:96 | `to_view` is left out of the body when absent, and sent as its literal otherwise. |
| Rotate.FromDirectionSent | src/api/rotate.ts:97 | `from_direction` is left out of the body when absent, and sent as its literal otherwise. |
| Rotate.ToDirectionSent | src/api/rotate.ts:98 | `to_direction` is left out of the body when absent, and sent as its literal otherwise. |
| Rotate.ViewChangeSent | src/api/rotate.ts:99 | `view_change` is left out of the body when absent, and sent as given otherwise. |
| Rotate.DirectionChangeSent | src/api/rotate.ts:100 | `direction_change` is left out of the body when absent, and sent as given otherwise. |
| Rotate.IsometricSent | src/api/rotate.ts:101 | The isometric flag, false by default, is always sent under `isometric`. |
| Rotate.ObliqueProjectionSent | src/api/rotate.ts:102 | The oblique projection flag, false by default, is always sent under `oblique_projection`. |
| Rotate.InitImageSent | src/api/rotate.ts:103 | An absent init image is sent as `null`, a present one as its wire form. |
| Rotate.InitImageStrengthSent | src/api/rotate.ts:104 | The init image strength, 300 by default, is always sent under `init_image_strength`. |
| Rotate.MaskImageSent | src/api/rotate.ts:105 | An absent mask image is sent as `null`, a present one as its wire form. |
| Rotate.FromImageSent | src/api/rotate.ts:106 | The image to rotate is always sent under `from_image`, as its wire form and never `null`. |
| Rotate.ColorImageSent | src/api/rotate.ts:107 | An absent color image is sent as `null`, a present one as its wire form. |
| Rotate.SeedSent | src/api/rotate.ts:108 | The seed, 0 by default, is always sent under `seed`. |
| Rotate.Rotate | src/api/rotate.ts:90-137 | Invalid parameters throw the raw `ZodError` and nothing is sent; otherwise one POST to the base URL plus `/rotate` carries the JSON body of the validated parameters, and the answer is read by `Pipeline.Receive` into `{image, usage}`, the image rebuilt by `fromData`, error answers through the corrected handler. |
| Rotate.FromImageRequired | src/api/rotate.ts:59 | Parameters without the image to rotate throw the raw `ZodError` before any request is made. |
| Rotate.ImageSizeRequired | src/api/rotate.ts:58 | Parameters without a size throw the raw `ZodError` before any request is made. |
| Rotate.TestParamsAccepted | src/api/rotate.ts:58-73 | They are accepted as given, with the defaults filled in. |
| Rotate.TestBody | src/api/rotate.ts:93-108 | Their body: the given view, direction and changes passed through, the unset ones left out, the image to rotate as its wire form and the absent images as `null`. |
| AnimateWithText.Validate | src/api/animateWithText.ts:59-75 | A successful parse yields parameters within every bound of the schema, required fields present (`Valid`); with `Read` and `Accepted` it succeeds exactly on objects that give such parameters. |
| AnimateWithText.Read | src/api/animateWithText.ts:59-75 | Whatever the schema accepts is read field by field from the input: given values as they are, absent optional fields absent, absent defaulted fields at their defaults (`Gives`). |
| AnimateWithText.Accepted | src/api/animateWithText.ts:59-75 | Conversely, an object that gives in-bound parameters is accepted and parsed into exactly those parameters. |
| AnimateWithText.RequestData | src/api/animateWithText.ts:99-119 | The `requestData` literal is an object with exactly its listed snake_case keys; `SentAt` and the `…Sent` rows give the value under each key. |
| AnimateWithText.Body | src/api/animateWithText.ts:129 | `JSON.stringify(requestData)` keeps a key exactly when its value in the literal is not `undefined`; `SentAt` and the `…Sent` rows give the value written under each key. |
| AnimateWithText.KeysDistinct | src/api/animateWithText.ts:99-119 | The camelCase-to-snake_case rename of the request literal is one-to-one: no key is written twice. |
| AnimateWithText.SentAt | src/api/animateWithText.ts:99-119 | A key of the request literal is in the JSON body, with its value, exactly when that value is not `undefined`. |
| AnimateWithText.Renamed | src/api/animateWithText.ts:99-119 | The JSON body holds no key other than the literal's snake_case names. |
| AnimateWithText.ImageSizeSent | src/api/animateWithText.ts:99 | The size is always sent under `image_size`, as the validated `{width, height}`. |
| AnimateWithText.DescriptionSent | src/api/animateWithText.ts:100 | The description is always sent under `description`. |
| AnimateWithText.ActionSent | src/api/animateWithText.ts:101 | The action is always sent under `action`. |
| AnimateWithText.NegativeDescriptionSent | src/api/animateWithText.ts:102 | An absent negative description is left out of the body (there is no default), a present one sent as given. |
| AnimateWithText.TextGuidanceScaleSent | src/api/animateWithText.ts:103 | The text guidance scale, 7.5 by default, is always sent under `text_guidance_scale`. |
| AnimateWithText.ImageGuidanceScaleSent | src/api/animateWithText.ts:104 | The image guidance scale, 1.5 by default, is always sent under `image_guidance_scale`. |
| AnimateWithText.FrameCountSent | src/api/animateWithText.ts:105 | The number of frames, 4 by default, is always sent under `n_frames`. |
| AnimateWithText.StartFrameIndexSent | src/api/animateWithText.ts:106 | The start frame index, 0 by default, is always sent under `start_frame_index`. |
| AnimateWithText.ViewSent | src/api/animateWithText.ts:107 | The view, "side" by default, is always sent under `view` as its literal. |
| AnimateWithText.DirectionSent | src/api/animateWithText.ts:108 | The direction, "east" by default, is always sent under `direction` as its literal. |
| AnimateWithText.ReferenceImageSent | src/api/animateWithText.ts:109 | The reference image is always sent under `reference_image`, as its wire form and never `null`. |
| AnimateWithText.InitImagesSent | src/api/animateWithText.ts:110-112 | Absent init images are sent as `null`; a present list element by element, keeping its length, order and `null` places. |
| AnimateWithText.InitImageStrengthSent | src/api/animateWithText.ts:113 | The init image strength, 300 by default, is always sent under `init_image_strength`. |
| AnimateWithText.InpaintingImagesSent | src/api/animateWithText.ts:114 | Absent inpainting images are sent as four `null`s; a present list, even an empty one, element by element. |
| AnimateWithText.MaskImagesSent | src/api/animateWithText.ts:115-117 | Absent mask images are sent as `null`; a present list element by element, keeping its length, order and `null` places. |
| AnimateWithText.ColorImageSent | src/api/animateWithText.ts:118 | An absent color image is sent as `null`, a present one as its wire form. |
| AnimateWithText.SeedSent | src/api/animateWithText.ts:119 | The seed, 0 by default, is always sent under `seed`. |
| AnimateWithText.InpaintingImages | src/api/animateWithText.ts:94-96 | `validatedParams.inpaintingImages \|\| Array.from({length: 4}, () => null)`: a given list is kept (an empty array is truthy), an absent one becomes four empty places. |
| AnimateWithText.AnimateWithText | src/api/animateWithText.ts:92-148 | Invalid parameters throw the raw `ZodError` and nothing is sent; otherwise one POST to the base URL plus `/animate-with-text` carries the JSON body of the validated parameters, and the answer is read by `Pipeline.Receive` into `{images, usage}`, each image rebuilt by `fromData`, error answers through the corrected handler. |
| AnimateWithText.ReferenceImageRequired | src/api/animateWithText.ts:62 | Parameters without a reference image throw the raw `ZodError` before any request is made. |
| AnimateWithText.EmptyActionRejected | src/api/animateWithText.ts:61 | An empty action is rejected before any request is made. |
| AnimateWithText.BadInitImageRejected | src/api/animateWithText.ts:70 | A list of init images holding a file name where an image or `null` belongs is rejected before any request is made. |
| AnimateWithText.TestParamsAccepted | src/api/animateWithText.ts:59-75 | The required fields alone are accepted, with the defaults filled in. |
| AnimateWithText.TestBody | src/api/animateWithText.ts:99-119 | Their body: view "side", direction "east", four frames, the inpainting images as four `null`s, no init or mask images, and no negative description. |
| AnimateWithSkeleton.Validate | src/api/animateWithSkeleton.ts:60-74 | A successful parse yields parameters within every bound of the schema, required fields present (`Valid`); with `Read` and `Accepted` it succeeds exactly on objects that give such parameters. |
| AnimateWithSkeleton.Read | src/api/animateWithSkeleton.ts:60-74 | Whatever the schema accepts is read field by field from the input: given values as they are, absent optional fields absent, absent defaulted fields at their defaults (`Gives`). |
| AnimateWithSkeleton.Accepted | src/api/animateWithSkeleton.ts:60-74 | Conversely, an object that gives in-bound parameters is accepted and parsed into exactly those parameters. |
| AnimateWithSkeleton.RequestData | src/api/animateWithSkeleton.ts:94-114 | The `requestData` literal is an object with exactly its listed snake_case keys; `SentAt` and the `…Sent` rows give the value under each key. |
| AnimateWithSkeleton.Body | src/api/animateWithSkeleton.ts:124 | `JSON.stringify(requestData)` keeps a key exactly when its value in the literal is not `undefined`; `SentAt` and the `…Sent` rows give the value written under each key. |
| AnimateWithSkeleton.KeysDistinct | src/api/animateWithSkeleton.ts:94-114 | The camelCase-to-snake_case rename of the request literal is one-to-one: no key is written twice. |
| AnimateWithSkeleton.SentAt | src/api/animateWithSkeleton.ts:94-114 | A key of the request literal is in the JSON body, with its value, exactly when that value is not `undefined`. |
| AnimateWithSkeleton.Renamed | src/api/animateWithSkeleton.ts:94-114 | The JSON body holds no key other than the literal's snake_case names. |
| AnimateWithSkeleton.ImageSizeSent | src/api/animateWithSkeleton.ts:94 | The size is always sent under `image_size`, as the validated `{width, height}`. |
| AnimateWithSkeleton.ReferenceGuidanceScaleSent | src/api/animateWithSkeleton.ts:95 | The reference guidance scale, 1.1 by default, is always sent under `reference_guidance_scale`. |
| AnimateWithSkeleton.PoseGuidanceScaleSent | src/api/animateWithSkeleton.ts:96 | The pose guidance scale, 3 by default, is always sent under `pose_guidance_scale`. |
| AnimateWithSkeleton.ViewSent | src/api/animateWithSkeleton.ts:97 | The required view is always sent under `view` as its literal. |
| AnimateWithSkeleton.DirectionSent | src/api/animateWithSkeleton.ts:98 | The required direction is always sent under `direction` as its literal. |
| AnimateWithSkeleton.IsometricSent | src/api/animateWithSkeleton.ts:99 | The isometric flag, false by default, is always sent under `isometric`. |
| AnimateWithSkeleton.ObliqueProjectionSent | src/api/animateWithSkeleton.ts:100 | The oblique projection flag, false by default, is always sent under `oblique_projection`. |
| AnimateWithSkeleton.InitImagesSent | src/api/animateWithSkeleton.ts:101-103 | Absent init images are sent as `null`; a present list as the wire forms of its images, in order (no element is `null`). |
| AnimateWithSkeleton.InitImageStrengthSent | src/api/animateWithSkeleton.ts:104 | The init image strength, 300 by default, is always sent under `init_image_strength`. |
| AnimateWithSkeleton.SkeletonKeypointsSent | src/api/animateWithSkeleton.ts:105 | The frames are always sent under `skeleton_keypoints` as validated: frame order and keypoint order kept, every `zIndex` filled in. |
| AnimateWithSkeleton.ReferenceImageSent | src/api/animateWithSkeleton.ts:106 | An absent reference image is sent as `null`, a present one as its wire form. |
| AnimateWithSkeleton.InpaintingImagesSent | src/api/animateWithSkeleton.ts:107-109 | Absent inpainting images (there is no default list here) are sent as `null`; a present list element by element, keeping its length, order and `null` places. |
| AnimateWithSkeleton.MaskImagesSent | src/api/animateWithSkeleton.ts:110-112 | Absent mask images are sent as `null`; a present list element by element, keeping its length, order and `null` places. |
| AnimateWithSkeleton.ColorImageSent | src/api/animateWithSkeleton.ts:113 | An absent color image is sent as `null`, a present one as its wire form. |
| AnimateWithSkeleton.SeedSent | src/api/animateWithSkeleton.ts:114 | The seed, 0 by default, is always sent under `seed`. |
| AnimateWithSkeleton.AnimateWithSkeleton | src/api/animateWithSkeleton.ts:91-143 | Invalid parameters throw the raw `ZodError` and nothing is sent; otherwise one POST to the base URL plus `/animate-with-skeleton` carries the JSON body of the validated parameters, and the answer is read by `Pipeline.Receive` into `{images, usage}`, each image rebuilt by `fromData`, error answers through the corrected handler. |
| AnimateWithSkeleton.FramesRequired | src/api/animateWithSkeleton.ts:61 | Parameters without skeleton frames throw the raw `ZodError` before any request is made. |
| AnimateWithSkeleton.ViewRequired | src/api/animateWithSkeleton.ts:62 | Parameters without a view throw the raw `ZodError`: the view has no default here. |
| AnimateWithSkeleton.DirectionRequired | src/api/animateWithSkeleton.ts:63 | Parameters without a direction throw the raw `ZodError`: the direction has no default here. |
| AnimateWithSkeleton.SingleFrameNotSent | src/api/animateWithSkeleton.ts:61 | A single frame where a list of frames is expected is rejected before any request is made. |
| AnimateWithSkeleton.TestParamsAccepted | src/api/animateWithSkeleton.ts:60-74 | The required fields alone are accepted, with the defaults filled in. |
| AnimateWithSkeleton.TestBody | src/api/animateWithSkeleton.ts:94-114 | Their body: the guidance scales at 1.1 and 3, the frames as given, and every absent image or image list as `null` (no four-`null` default). |

## Left out

- The network, `fetch` and `await`: an exchange is a parameter, either `Answered(response)` or `Unreachable`. A body that `response.json()` cannot read is `None`.
- Timeouts, retries and cancellation: the client has none of its own.
- `console.error` in the `catch` block of `generateImagePixflux` (src/api/generateImagePixflux.ts:134): output only.
- `.bind(this)` in the client: each facade takes the client as a parameter.
- `fromEnv`, `fromEnvFile` and `settings.ts`: they read the process environment and `.env` files. Their rule that the secret is not empty is not part of this model.
- `saveToFile`, and the file reading of `fromFile`: `Base64Images.FromFile` takes the file's bytes and the extension `path.extname` returned.
- Key order: objects are maps, so the order of keys in the JSON text is not modelled, nor is the JSON text itself.
- The structure of `ZodError`, that is its issues and paths: a rejected input is the single value `ZodError`. A `ValidationError` records only whether a `ZodError` was attached.
- JavaScript numbers: they are modelled as unbounded reals. IEEE-754 rounding, `NaN` and the infinities are not modelled.
- An error message is kept as the JSON value it was built from; the conversion `new Error(message)` applies to a non-string is not modelled.
- The per-operation parameter schemas are read by typed readers (`Validate`) rather than written as `Zod.ObjectSchema` values. Each reader is proved against its leaf schema by an `…Agrees` lemma. `Read` and `Accepted` relate `Validate` to the fields of the input.
- Each operation's `Accepted`: stated for inputs that are plain objects; a `Base64Image` instance passed as the parameter object is not covered.
- `Base64.Decode`: skips every character outside the alphabet, `=` included, wherever it appears. What Node does with data after a `=` in mid-string is not modelled, so the round trip is proved for canonical encodings only.
- `Base64Images.Lower`: ASCII only; `toLowerCase` also folds non-ASCII letters.
- `Base64Images.DataUrlRoundTrip`: proved only for formats without a comma, because a comma in the format makes the media type ambiguous.
- The error handler: every operation classifies error answers with the corrected `Errors.HandleHttpError` of "## Findings". `Pipeline.ReceiveAsWritten` proves that error answers match the code as written on every body but JSON `null`. The members below are stated of the corrected handler.
- Receive: stated of the corrected `handleHttpError`. A non-2xx answer whose body is JSON `null` gives the error of the status line here, where the code as written throws a `TypeError`.
- PostCall: stated of the corrected `handleHttpError`. A non-2xx answer whose body is JSON `null` gives the error of the status line here, where the code as written throws a `TypeError`.
- GetCall: stated of the corrected `handleHttpError`. A non-2xx answer whose body is JSON `null` gives the error of the status line here, where the code as written throws a `TypeError`.
- GenerateImagePixflux: stated of the corrected `handleHttpError`. A non-2xx answer whose body is JSON `null` gives the error of the status line here, where the code as written throws a `TypeError`.
- GenerateImageBitforge: stated of the corrected `handleHttpError`. A non-2xx answer whose body is JSON `null` gives the error of the status line here, where the code as written throws a `TypeError`.
- Inpaint: stated of the corrected `handleHttpError`. A non-2xx answer whose body is JSON `null` gives the error of the status line here, where the code as written throws a `TypeError`.
- Rotate: stated of the corrected `handleHttpError`. A non-2xx answer whose body is JSON `null` gives the error of the status line here, where the code as written throws a `TypeError`.
- AnimateWithText: stated of the corrected `handleHttpError`. A non-2xx answer whose body is JSON `null` gives the error of the status line here, where the code as written throws a `TypeError`.
- AnimateWithSkeleton: stated of the corrected `handleHttpError`. A non-2xx answer whose body is JSON `null` gives the error of the status line here, where the code as written throws a `TypeError`.
- EstimateSkeleton: stated of the corrected `handleHttpError`. A non-2xx answer whose body is JSON `null` gives the error of the status line here, where the code as written throws a `TypeError`.
- AnswerRead: stated of the corrected `handleHttpError`. A non-2xx answer whose body is JSON `null` gives the error of the status line here, where the code as written throws a `TypeError`.
- GetBalance: stated of the corrected `handleHttpError`. A non-2xx answer whose body is JSON `null` gives the error of the status line here, where the code as written throws a `TypeError`.
- ErrorStatusClassified: stated of the corrected `handleHttpError`. A non-2xx answer whose body is JSON `null` gives the error of the status line here, where the code as written throws a `TypeError`.
- ClassifiedByStatus: stated of the corrected `handleHttpError`. A non-2xx answer whose body is JSON `null` gives the error of the status line here, where the code as written throws a `TypeError`.
- MessagePrecedence: stated of the corrected `handleHttpError`. A non-2xx answer whose body is JSON `null` gives the error of the status line here, where the code as written throws a `TypeError`.
- The spread `...this.headers()` before `Content-Type`: the headers are a map, so which of two equal keys wins is not modelled. The client's headers never hold `Content-Type`.

## Findings

| source | as written | input that shows it | evidently intended | confidence | as-written member | corrected member |
|---|---|---|---|---|---|---|
| src/errors.ts:49-57 | `errorData` is replaced by whatever `response.json()` returns, so a body that is the JSON text `null` makes `errorData.detail` throw a `TypeError` | a 500 "Internal Server Error" answer whose body is `null` | the same fallback as a body that is not JSON: `HttpError("HTTP 500: Internal Server Error", 500)` | not executed; follows from JavaScript property-access rules | Errors.HandleHttpErrorAsWritten, Errors.NullBodyThrowsTypeError | Errors.HandleHttpError, Errors.CorrectedAgrees |

Every facade classifies error answers with the corrected `Errors.HandleHttpError`. `Errors.CorrectedAgrees` proves that it agrees with the code as written on every other body.
