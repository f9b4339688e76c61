# CasaCorretorAPI — a Dafny model of insurance contracting

CasaCorretorAPI is a small ASP.NET Core service through which a broker
contracts insurance for a proposer (*proponente*). A proposer has a full
name, a CPF (the Brazilian taxpayer number), a birth date and an insurance
(*seguro*) with a coverage amount. Contracting first asks an external
authorizer for permission, then refuses a CPF that is already registered, and
otherwise appends the proposer to an in-memory registry (`BD.Proponentes`).
A second endpoint lists the registry with a message that counts its entries.

This project models that core, one Dafny module per source file:

| module | file | models |
|---|---|---|
| `StringUtil` | `string_util.dfy` | `StringUtil.RemoveNaoNumericos`: keep only `0`–`9` |
| `CpfAttribute` | `cpf_attribute.dfy` | the CPF rule (padding, blacklist, two mod-11 check digits); the attribute's loops and `int[]` kept as a method proved against the rule |
| `NomeCompletoAttribute` | `nome_completo_attribute.dfy` | full-name rule: at least two space-separated parts, each of two or more letters, `'` or `-` |
| `DataNascimentoAttribute` | `data_nascimento_attribute.dfy` | age computation with `DateOnly.AddYears` and the 18-year threshold, with its two messages |
| `SeguroModel` | `seguro.dfy` | `Range(100000, int.MaxValue)` on the coverage |
| `ProponenteModel` | `proponente.dfy` | the `Proponente` class, its CPF setter, and the errors its annotations report |
| `Data` | `bd.dfy` | the registry `BD` as a class with a `seq<Proponente>` field |
| `ContratarController` | `contratar_controller.dfy` | `PostContratar` and the fail-closed `AutorizadorExterno` |
| `ContratacoesController` | `contratacoes_controller.dfy` | `GetContratacoes` and its zero / one / many messages |
| `Annotations`, `Wrappers` | `annotations.dfy`, `wrappers.dfy` | .NET string helpers the rules rely on (`char.IsWhiteSpace`, `Trim`, `Split(' ', RemoveEmptyEntries)`), validation results, `Option` |

The external world enters as parameters. How the HTTP call to the authorizer
ended is a value of `Chamada`: either a JSON answer (each member present or
absent) or an exception. `DateOnly.TryParse` is a function parameter
`tryParse`, and "today" is a parameter `hoje`. A C# `object? value` handed to
a validation attribute is an `Option<string>`; `None` stands for null or for
a value that is not a string.

Two places where the code does less than its own comments or the shape of
the data suggest, and the model follows the code:
- The comment on the CPF property (`CasaCorretorAPI/Models/Proponente.cs:28`)
  says non-digit characters are always removed. The setter
  (`CasaCorretorAPI/Models/Proponente.cs:36-42`) stores a null or blank value
  unchanged and only strips other values. `ProponenteModel.CpfArmazenado`
  states exactly that.
- The registry is meant to hold one proposer per CPF. `PostContratar`
  (`CasaCorretorAPI/Controllers/ContratarController.cs:40-43`) checks with
  `List.Exists` and then calls `List.Add`, without any lock. The model proves
  the uniqueness invariant for requests handled one after the other and
  claims nothing about concurrent requests.

## Model

| member | source | states |
|---|---|---|
| StringUtil.RemoveNaoNumericos | CasaCorretorAPI/Utils/StringUtil.cs:13-18 | the result contains only ASCII digits and is never longer than the input |
| StringUtil.RemoveNaoNumericosIsDigitSubsequence | CasaCorretorAPI/Utils/StringUtil.cs:15-16 | the result is a subsequence of the input, and it holds exactly as many copies of each digit as the input and none of any other character |
| StringUtil.RemoveNaoNumericosKeepsDigits | CasaCorretorAPI/Utils/StringUtil.cs:15-16 | a text that is already all digits comes back unchanged |
| StringUtil.RemoveNaoNumericosIdempotent | CasaCorretorAPI/Utils/StringUtil.cs:15-16 | stripping twice gives the same result as stripping once |
| StringUtil.RemoveNaoNumericosConcat | CasaCorretorAPI/Utils/StringUtil.cs:15-16 | stripping distributes over concatenation: strip(a + b) = strip(a) + strip(b) |
| StringUtil.MaskedStripsToDigits | CasaCorretorAPI/Models/Proponente.cs:40-41 | the masked form `ddd.ddd.ddd-dd` strips to its eleven digits in order |
| CpfAttribute.IsValid | CasaCorretorAPI/Validations/CPFAttribute.cs:17-72 | the attribute's steps (strip, length check, padding loop, all-equal loop, blacklist, array of digits, two weighted sums with their branches) return true exactly when `IsValidCpf` holds |
| CpfAttribute.PadWithZeros | CasaCorretorAPI/Validations/CPFAttribute.cs:28-30 | the padding loop yields the digits left-padded with '0' to exactly 11 characters |
| CpfAttribute.HasAllSameDigits | CasaCorretorAPI/Validations/CPFAttribute.cs:32-36 | the early-exit loop reports true exactly when all 11 characters equal the first |
| CpfAttribute.ParseDigits | CasaCorretorAPI/Validations/CPFAttribute.cs:41-44 | a fresh array holding the numeric value of each of the 11 characters, in order |
| CpfAttribute.SumWithWeights | CasaCorretorAPI/Validations/CPFAttribute.cs:46-49 | the accumulating loop yields the sum of (w - i) * d[i] over the first n digits |
| CpfAttribute.NullRejected | CasaCorretorAPI/Validations/CPFAttribute.cs:71 | a null or non-string value is invalid |
| CpfAttribute.FormattingInsensitive | CasaCorretorAPI/Validations/CPFAttribute.cs:22 | a text and its digits alone are judged alike, so punctuation never changes the verdict |
| CpfAttribute.TooManyDigitsRejected | CasaCorretorAPI/Validations/CPFAttribute.cs:25-26 | more than 11 digits is always invalid |
| CpfAttribute.ShortInputIsZeroPadded | CasaCorretorAPI/Validations/CPFAttribute.cs:28-30 | fewer than 11 digits are judged as the number left-padded with zeros |
| CpfAttribute.NoDigitsRejected | CasaCorretorAPI/Validations/CPFAttribute.cs:28-39 | a text without digits (blank, letters only) pads to all zeros and is invalid |
| CpfAttribute.RepeatedDigitRejected | CasaCorretorAPI/Validations/CPFAttribute.cs:32-39 | eleven copies of any one digit are invalid |
| CpfAttribute.RepeatedOnesPassChecksum | CasaCorretorAPI/Validations/CPFAttribute.cs:32-39 | "11111111111" has correct check digits, so only the all-equal rule rejects it |
| CpfAttribute.BlacklistedRejectedDespiteChecksum | CasaCorretorAPI/Validations/CPFAttribute.cs:38-39 | "12345678909" has correct check digits and is still invalid |
| CpfAttribute.ElevenDigitsAcceptedIff | CasaCorretorAPI/Validations/CPFAttribute.cs:32-68 | an 11-digit string is valid if and only if its digits are not all equal, it is not the placeholder, and digits 9 and 10 are the mod-11 check digits |
| CpfAttribute.ExampleInvalidRejected | CasaCorretorTests/Controllers/ContratarControllerTests.cs:53-60 | "123.456.789-10" is invalid |
| CpfAttribute.ExampleDigitsAccepted | CasaCorretorAPI/Validations/CPFAttribute.cs:46-68 | "28981056005" is valid: its check digits 0 and 5 are right |
| CpfAttribute.ExampleMaskedAccepted | CasaCorretorTests/Controllers/ContratarControllerTests.cs:198-207 | the masked CPF "289.810.560-05" used by the tests is valid |
| Annotations.Trim | CasaCorretorAPI/Validations/NomeCompletoAttribute.cs:29 | the trimmed text is empty exactly when the text is all white space, and otherwise starts and ends with a character that is not white space |
| Annotations.SplitJoin | CasaCorretorAPI/Validations/NomeCompletoAttribute.cs:29 | words that are non-empty and free of spaces, joined by single spaces, split back into exactly those words in order |
| Annotations.SplitWithoutSpace | CasaCorretorAPI/Validations/NomeCompletoAttribute.cs:29 | a text without a space splits into at most one entry |
| Annotations.SplitFrom | CasaCorretorAPI/Validations/NomeCompletoAttribute.cs:29 | splitting on ' ' with empty entries removed yields parts that are non-empty and contain no space |
| NomeCompletoAttribute.IsValidNome | CasaCorretorAPI/Validations/NomeCompletoAttribute.cs:20-50 | an accepted value is a string that, once trimmed, still contains a space between words |
| NomeCompletoAttribute.NullRejected | CasaCorretorAPI/Validations/NomeCompletoAttribute.cs:49 | a null or non-string value is invalid |
| NomeCompletoAttribute.BlankNameRejected | CasaCorretorAPI/Validations/NomeCompletoAttribute.cs:25-26 | an empty or all-white-space name has no parts and is invalid |
| NomeCompletoAttribute.FewerThanTwoPartsRejected | CasaCorretorAPI/Validations/NomeCompletoAttribute.cs:29-33 | a name with fewer than two parts is invalid |
| NomeCompletoAttribute.LeadingWhiteSpaceIgnored | CasaCorretorAPI/Validations/NomeCompletoAttribute.cs:29 | a leading white-space character does not change the verdict |
| NomeCompletoAttribute.TrailingWhiteSpaceIgnored | CasaCorretorAPI/Validations/NomeCompletoAttribute.cs:29 | a trailing white-space character does not change the verdict |
| NomeCompletoAttribute.ExtraInnerSpaceIgnored | CasaCorretorAPI/Validations/NomeCompletoAttribute.cs:29 | two spaces between two words give the same verdict as one |
| NomeCompletoAttribute.PartesOfTwoWords | CasaCorretorAPI/Validations/NomeCompletoAttribute.cs:29 | two non-empty words free of white space, joined by one space, split into exactly those two parts |
| NomeCompletoAttribute.TwoPartNameAccepted | CasaCorretorAPI/Validations/NomeCompletoAttribute.cs:22-45 | any two parts that each match the name pattern, joined by one space, form a valid full name |
| NomeCompletoAttribute.ExampleSingleLetterPartRejected | CasaCorretorTests/Controllers/ContratarControllerTests.cs:40-47 | "Fabio S" is invalid: its second part has a single letter |
| NomeCompletoAttribute.ExampleFullNameAccepted | CasaCorretorAPI/Validations/NomeCompletoAttribute.cs:29-45 | "Renato Silva" is valid |
| DataNascimentoAttribute.AddYears | CasaCorretorAPI/Validations/DataNascimentoAttribute.cs:31 | shifting by n years keeps month and day, except that 29 February falls back to 28 February in a common year |
| DataNascimentoAttribute.Idade | CasaCorretorAPI/Validations/DataNascimentoAttribute.cs:30-31 | the attribute's age (year difference, minus one when the birth date is after today shifted back with AddYears) equals the completed-years age by month and day comparison |
| DataNascimentoAttribute.ShiftedBackComparison | CasaCorretorAPI/Validations/DataNascimentoAttribute.cs:31 | today shifted back to the birth year is before the birth date exactly when the birthday falls later in the year than today, 29 February included |
| DataNascimentoAttribute.Validate | CasaCorretorAPI/Validations/DataNascimentoAttribute.cs:18-52 | the format message exactly when the value is null or does not parse; success exactly when the completed-years age is at least 18; the under-age message otherwise |
| DataNascimentoAttribute.IdadeBounds | CasaCorretorAPI/Validations/DataNascimentoAttribute.cs:30-31 | the age is the year difference or one less |
| DataNascimentoAttribute.EighteenthBirthdayAccepted | CasaCorretorAPI/Validations/DataNascimentoAttribute.cs:30-37 | on the eighteenth birthday the age is exactly 18, the threshold |
| DataNascimentoAttribute.DayBeforeEighteenthBirthdayRejected | CasaCorretorAPI/Validations/DataNascimentoAttribute.cs:30-41 | on any day of the eighteenth year before the eighteenth birthday the age is still 17, so the date is rejected |
| DataNascimentoAttribute.IdadeAntitone | CasaCorretorAPI/Validations/DataNascimentoAttribute.cs:30-31 | an earlier birth date never gives a smaller age |
| DataNascimentoAttribute.AcceptanceMonotone | CasaCorretorAPI/Validations/DataNascimentoAttribute.cs:30-37 | if a birth date is accepted, every earlier one is accepted too |
| DataNascimentoAttribute.FutureBirthDateRejected | CasaCorretorAPI/Validations/DataNascimentoAttribute.cs:30-41 | a birth date after today gets the under-age message |
| DataNascimentoAttribute.ExampleReferenceDate | CasaCorretorAPI/Validations/DataNascimentoAttribute.cs:30-41 | on 2024-06-01 someone born 2006-06-01 is 18 and someone born 2006-06-02 is 17 |
| SeguroModel.ValidateSeguro | CasaCorretorAPI/Models/Seguro.cs:15-17 | no error exactly when 100000 <= coverage <= 2147483647; otherwise the single coverage error on member "Cobertura" |
| SeguroModel.CoberturaBoundaries | CasaCorretorAPI/Models/Seguro.cs:16 | 100000 and int.MaxValue are accepted; 99999 and int.MaxValue + 1 are rejected (see "Left out" for amounts above int.MaxValue); 90000 (the tests' value) and the default 0 get the coverage message |
| ProponenteModel.CpfArmazenado | CasaCorretorAPI/Models/Proponente.cs:34-43 | a null or blank value is stored as given; any other value is stored as its digits |
| ProponenteModel.CpfArmazenadoCanonical | CasaCorretorAPI/Models/Proponente.cs:36-42 | the stored CPF is null, blank, or digits only |
| ProponenteModel.CpfArmazenadoIdempotent | CasaCorretorAPI/Models/Proponente.cs:36-42 | assigning the stored CPF again stores the same value |
| ProponenteModel.MaskedCpfStored | CasaCorretorAPI/Models/Proponente.cs:36-42 | a CPF in the mask `ddd.ddd.ddd-dd` is stored as its plain digits, and the plain digits are stored unchanged |
| ProponenteModel.ExampleFormattedCpfStored | CasaCorretorTests/Controllers/ContratarControllerTests.cs:138-152 | "908.630.180-09" and "90863018009" are both stored as "90863018009" |
| ProponenteModel.Proponente.constructor | CasaCorretorAPI/Models/Proponente.cs:17-59 | a new proposer has empty name, CPF and birth date, and no insurance |
| ProponenteModel.Proponente.Cpf | CasaCorretorAPI/Models/Proponente.cs:33 | the getter returns the stored private field |
| ProponenteModel.Proponente.SetCpf | CasaCorretorAPI/Models/Proponente.cs:34-43 | the setter stores `CpfArmazenado(value)` and changes no other field |
| ProponenteModel.Proponente.Erros | CasaCorretorAPI/Models/Proponente.cs:17-59 | a proposer has no error exactly when its name, CPF and birth date pass their rules and it has an insurance (CPF rule applied as intended) |
| ProponenteModel.ValidateProponente | CasaCorretorAPI/Models/Proponente.cs:17-59 | per property, the required error exactly when the value is null or blank, the property's own error exactly when it is present and breaks its rule; no error exactly when the name is valid, the birth date is present and accepted, and an insurance is given |
| ProponenteModel.EmptyProponenteErrors | CasaCorretorTests/Controllers/ContratarControllerTests.cs:22-34 | a new proposer reports exactly the three required errors of Nome, DataNascimento and Seguro |
| ProponenteModel.InvalidCpfPassesAsWritten | CasaCorretorAPI/Models/Proponente.cs:22-24 | a proposer with CPF "123.456.789-10", which the CPF rule rejects, reports no error |
| ProponenteModel.ValidateProponenteComCpf | CasaCorretorAPI/Models/Proponente.cs:22-24 | with the CPF annotations applied: no error exactly when the other properties pass and the CPF is valid; the CPF required error exactly when it is blank; the CPF invalid error exactly when it is present and invalid |
| Data.BD.constructor | CasaCorretorAPI/Data/BD.cs:11 | the registry starts empty |
| ContratarController.Deserialize | CasaCorretorAPI/Models/APIResponse.cs:11-21 | members absent from the JSON keep their defaults; authorization holds exactly when `data.authorization` is present and true |
| ContratarController.AutorizadorExterno | CasaCorretorAPI/Controllers/ContratarController.cs:62-99 | authorization holds exactly when the call answered and its data says authorization is true, and an exception gives status "fail", the exception's message and no authorization |
| ContratarController.MensagemConflito | CasaCorretorAPI/Controllers/ContratarController.cs:51 | the conflict message is the fixed prefix, the CPF as interpolated (empty for null) and the fixed suffix, so the CPF sits at a known position |
| ContratarController.MensagemConflitoInjective | CasaCorretorAPI/Controllers/ContratarController.cs:51 | different CPFs give different conflict messages |
| ContratarController.Decide | CasaCorretorAPI/Controllers/ContratarController.cs:36-57 | unauthorized exactly when the authorizer refuses; a conflict exactly when authorized and the CPF is registered; contracted exactly when authorized and the CPF is new |
| ContratarController.RegistraKeepsDistinct | CasaCorretorAPI/Controllers/ContratarController.cs:40-43 | one request keeps the registered CPFs pairwise distinct and only appends |
| ContratarController.PostContratar | CasaCorretorAPI/Controllers/ContratarController.cs:34-58 | Ok with the proposer appended, Conflict quoting the CPF, or Unauthorized, according to `Decide`; the registry only grows, and stays free of duplicate CPFs if it was |
| ContratarController.SequentialRequestsKeepDistinct | CasaCorretorAPI/Controllers/ContratarController.cs:40-43 | any sequence of requests handled one after the other keeps the CPFs distinct and the registry append-only |
| ContratarController.RegisteredCpfNeverContractedAgain | CasaCorretorAPI/Controllers/ContratarController.cs:40-52 | once a CPF is registered, no later request carrying it is contracted, whatever other requests come in between |
| ContratarController.SameCpfContractedOnce | CasaCorretorAPI/Controllers/ContratarController.cs:36-52 | of requests with one new CPF, exactly one is contracted if any is authorized, and none otherwise |
| ContratarController.ContractTwice | CasaCorretorAPI/Controllers/ContratarController.cs:34-58 | with authorization and an empty registry, two proposers given the same CPF get Ok and then the conflict naming the stored CPF, and one proposer is registered |
| ContratarController.ExampleContractTwice | CasaCorretorTests/Controllers/ContratarControllerTests.cs:189-229 | "289.810.560-05" posted twice with authorization: the first is contracted, the second gets the conflict naming "28981056005", and one proposer is registered |
| ContratarController.ExampleUnauthorized | CasaCorretorTests/Controllers/ContratarControllerTests.cs:160-183 | an answer with authorization false gives Unauthorized and nothing is registered |
| ContratacoesController.GetContratacoes | CasaCorretorAPI/Controllers/ContratacoesController.cs:25-50 | always status 200; the list is present exactly when the registry is not empty and is then the registry itself; the message is the count message for the registry's size |
| ContratacoesController.NatToStringInjective | CasaCorretorAPI/Controllers/ContratacoesController.cs:31 | different counts are written as different decimal texts |
| ContratacoesController.MensagemContagemInjective | CasaCorretorAPI/Controllers/ContratacoesController.cs:27-48 | different registry sizes give different messages, so the message tells the count |
| ContratacoesController.ExampleSingular | CasaCorretorAPI/Controllers/ContratacoesController.cs:31 | one proposer gives "Temos 1 proponente cadastrado." |
| ContratacoesController.ExamplePlural | CasaCorretorAPI/Controllers/ContratacoesController.cs:39 | two proposers give "Temos 2 proponentes cadastrados." |

## Findings

| source | as written | input that shows it | evidently intended | confidence | as-written member | corrected member |
|---|---|---|---|---|---|---|
| CasaCorretorAPI/Models/Proponente.cs:22-24 | `[Required]` and `[CPF]` sit on the private field `_CPF`; model validation only visits public properties, so a proposer's CPF is never checked | Nome "Renato Silva", CPF "123.456.789-10", an adult birth date, coverage 150000: no validation error, and the request can be contracted | the CPF property is required and must pass the CPF rule | medium, not executed | ProponenteModel.InvalidCpfPassesAsWritten | ProponenteModel.ValidateProponenteComCpf |

`ProponenteModel.ValidateProponente` models the validation as written.
`ProponenteModel.Proponente.Erros` uses the corrected
`ValidateProponenteComCpf`.

## Left out

- The HTTP call itself (URL, `GetAsync`, `EnsureSuccessStatusCode`, reading the body) is a parameter: the model takes how the call ended, a JSON answer or an exception.
- JSON deserialization details are left out: case-insensitive member matching, type errors (these end in the exception branch), and a `null` JSON literal. For `null`, `Deserialize` returns null and `PostContratar` faults on `autorizador.Data`. The same fault happens for `"data": null`. Both are left to the framework.
- Concurrency: `BD.Proponentes` is a shared `List` and `Exists`/`Add` are not atomic. The model handles requests one after the other and claims no atomicity.
- `DateOnly.TryParse` (culture-dependent formats) and `DateTime.Today` are parameters of `DataNascimentoAttribute.Validate`.
- SeguroModel.ValidateSeguro: the coverage is a C# `decimal`; the model uses whole numbers, so fractional amounts and the framework's decimal-to-int range conversion are not modelled.
- CoberturaBoundaries: amounts above int.MaxValue are modelled as rejected with the coverage message. In .NET the range check first converts the amount to `int`, which overflows for such amounts, and the outcome is then the framework's, not the attribute's.
- How ASP.NET discovers attributes by reflection, and the order it reports errors in, are not modelled. `ValidateProponente` lists the errors in property order with `[Required]` first, and the nested `Seguro` is checked separately by `ValidateSeguro`.
- NomeCompletoAttribute.IsNamePart: in .NET, `$` also matches just before a final `'\n'`, so a part such as `"Ana\n"` (from the name `"Ana\n Silva"`) passes the regex. The model requires every character of a part to be a name character and rejects that part.
- Text is a sequence of Unicode scalar values (a Dafny `char`), while .NET strings are UTF-16 code units: surrogate pairs and lone surrogates are not modelled. `char.IsWhiteSpace` is written out for the characters it accepts; no normalisation or case folding is involved.
- The JWT login (`AuthController`), authorization policies, the exception-handling middleware, Swagger and the test doubles are not part of this model.
