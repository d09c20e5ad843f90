# ElkOpticsAnalyzer core in Dafny

This project models the non-GUI core of ElkOpticsAnalyzer (ElkOA). ElkOA reads the
optical response tensors that the Elk code writes and converts between them.
The model covers:

- the response-relation `Converter` (`elkoa/utils/convert.py`):
  - projection operators for a wave vector q;
  - the Electric Solution Generator (ESG) and its inverse;
  - conductivity ⇄ dielectric tensor conversion;
  - the longitudinal part and the refractive indices;
  - the setters that rebuild the derived members;
- the helpers of `elkoa/utils/misc.py`: tensor shapes, element states, the Hartree
  constant and the file-name → LaTeX labels;
- the `elk.in` readers of `elkoa/utils/elk.py`: `readElkInputParameter`,
  `parseElkInput` and the derived lattice quantities of `ElkInput`;
- the decoding done by the data readers of `elkoa/utils/io.py` (`readTensor`, `readScalar` and their wrappers);
- the tables of `elkoa/utils/dicts.py` and the loop that adds the generic tensor conversions to `CONVERSION_DICT`;
- the legacy single-file version `Utilities.py`: `Read`, `ElkInput` and `misc`.

Modules, one per file:

- `Py`: Python's `None`, exceptions and dynamically typed values.
- `Numerics`: reals, complex numbers, 3×3 real and complex matrices, and floats that may be NaN.
- `Fields`: numpy's (3, 3, N) complex arrays as `seq<seq<seq<CFloat>>>`, indexed `[i][j][f]` like numpy.
- `Misc`, `Elk`, `Io`, `Dicts` and `Convert`: one module for each file of `elkoa/utils`.
- `Legacy`: `Utilities.py`.

A Python function that raises becomes a `Result` whose `Raise` case names the
exception. `Converter` is a Dafny `class`: its fields are the ones the
setters update. The loops of the source are methods. Each method is proved
equal to a specification function, and the lemmas are about those functions.

Some operations depend on things the model does not contain:

- numpy's `sqrt` and `inv` and Python's `float()` are parameters (`sqrt`, `inv`, `toFloat`). Lemmas that need exact values assume `IsSqrt(sqrt)` or that `inv` inverts.
- The eigenvalues of the 2×2 transverse matrix in `epsilonToRefractiveIndices` are a parameter.
- A data file is a `Load`: `Missing` when `np.loadtxt` cannot open it, `Malformed` when its text does not parse, `Read(a)` when it loads as the 2-D array `a`.
- `elk.in` is its sequence of lines.

`misc.hartree2ev`, `misc.hartreeInEv`, `misc.sol_au` and `misc.shortenPath` are used but never defined in `misc.py`. The model takes the constants to be the CODATA 2014 values: `Hartree2eV` from `misc.py` and 1/α. It takes `misc.shortenPath` (elkoa/utils/elk.py:42) to exist, so that the missing-parameter path of `readElkInputParameter` raises NameError and not an AttributeError while it builds the message.

## Model

| member | source | states |
|---|---|---|
| `Convert.ProjectionOperators` | elkoa/utils/convert.py:53-80 | None exactly when ‖q‖² < 1e-10; otherwise pL is symmetric and idempotent, pT = I − pL, and pL·‖q‖² = q qᵀ entrywise |
| `Convert.OuterProjector` | elkoa/utils/convert.py:71 | q qᵀ·c with c‖q‖² = 1 is a symmetric idempotent matrix whose entries times ‖q‖² are qᵢqⱼ |
| `Convert.ProjectorsOf` | elkoa/utils/convert.py:71-72 | q qᵀ·c with c‖q‖² = 1 and I − q qᵀ·c are a complementary pair of symmetric projectors, and ‖q‖² times the first is q qᵀ |
| `Convert.OuterIdempotent` | elkoa/utils/convert.py:71 | (c q qᵀ)² = c q qᵀ when c‖q‖² = 1 |
| `Convert.OuterSymmetric` | elkoa/utils/convert.py:71 | c q qᵀ is symmetric |
| `Convert.ComplementProjector` | elkoa/utils/convert.py:72 | I − P of a symmetric idempotent P is again a projector that complements P |
| `Convert.CheckForNan` | elkoa/utils/convert.py:38-50 | raises ValueError exactly when some entry of the field is NaN; otherwise the converter sees the field unchanged |
| `Convert.ToHartree` | elkoa/utils/convert.py:164-168 | the stored frequencies times Hartree2eV give back the frequencies in eV, one per input |
| `Convert.RegularizedFrequencies` | elkoa/utils/convert.py:118-127 | one regularized frequency per frequency, following the chosen scheme |
| `Convert.RegularizedSquares` | elkoa/utils/convert.py:118-125 | "imp" squares to ω² + 2iηω with a non-negative real part; "conv" (ω + iη) squares to ω² − η² + 2iηω |
| `Convert.RegularizationsAgreeUndamped` | elkoa/utils/convert.py:118-125 | with η = 0 and ω ≥ 0 both schemes give ω itself |
| `Convert.Pre` | elkoa/utils/convert.py:153-154 | `pre` is non-zero and is the reciprocal of 1 − fac |
| `Convert.Derive` | elkoa/utils/convert.py:113-158 | the members `_buildMembers` computes, one regularized frequency, ESG and inverse ESG per frequency; their values are stated by `Convert.DeriveProjectors`, `Convert.DeriveIdentityEsg`, `Convert.DeriveGeneralEsg` and `Convert.EsgInverse` |
| `Convert.DeriveProjectors` | elkoa/utils/convert.py:116-117 | qabs2 = ‖q‖²; pL and pT are None together, exactly when ‖q‖² < 1e-10, and otherwise are the projectors of q; qabs ≥ 0 with qabs² = qabs2 |
| `Convert.DeriveIdentityEsg` | elkoa/utils/convert.py:131-149 | for a zero q or in the optical limit, every ESG and inverse ESG is the identity |
| `Convert.DeriveGeneralEsg` | elkoa/utils/convert.py:150-158 | in the general branch esg[f] = pL + pre·pT and esgInv[f] = pL + pT/pre, with pre·(1 − c²‖q‖²/ω̃²) = 1 |
| `Convert.EsgInverse` | elkoa/utils/convert.py:128-158 | esg[f]·esgInv[f] = esgInv[f]·esg[f] = I at every frequency, in all three branches |
| `Convert.FactorsReciprocal` | elkoa/utils/convert.py:257 | the factors 4π/(iω) and iω/(4π) of the two conversions are reciprocal: their product is one in both orders |
| `Convert.EpsilonRoundTripAt` | elkoa/utils/convert.py:252-269 | at one frequency, converting ε to σ and back gives ε |
| `Convert.SigmaRoundTripAt` | elkoa/utils/convert.py:252-269 | at one frequency, converting σ to ε and back gives σ |
| `Convert.SigmaToEpsilonOf` | elkoa/utils/convert.py:252-260 | a NaN raises ValueError; a zero regularized frequency raises FloatingPointError; otherwise each slice is I − 4π/(iω)·esg·σ |
| `Convert.EpsilonToSigmaOf` | elkoa/utils/convert.py:262-269 | raises ValueError exactly for a NaN field; otherwise each slice is esgInv·(iω/4π)(I − ε) |
| `Convert.EpsilonRoundTrip` | elkoa/utils/convert.py:252-269 | for NaN-free ε, non-zero frequencies and mutually inverse ESGs, sigmaToEpsilon(epsilonToSigma(ε)) = ε |
| `Convert.SigmaRoundTrip` | elkoa/utils/convert.py:252-269 | under the same conditions, epsilonToSigma(sigmaToEpsilon(σ)) = σ |
| `Convert.ConverterRoundTrips` | elkoa/utils/convert.py:113-269 | with the members `_buildMembers` computes, both conversions succeed and invert each other on every NaN-free field |
| `Convert.GeneralBranchNonZero` | elkoa/utils/convert.py:150-158 | when the general branch builds its ESGs, no regularized frequency is zero, so sigmaToEpsilon cannot divide by zero |
| `Convert.DotField` | elkoa/utils/convert.py:250 | `np.dot(pL, ten)` on a NaN-free (3,3,N) field is again a NaN-free (3,3,N) field |
| `Convert.LongitudinalPartAsWritten` | elkoa/utils/convert.py:244-250 | NaN raises ValueError; no projector gives None; otherwise the result of `np.dot(pL, ten)`, a field of the same length |
| `Convert.DotFieldSlices` | elkoa/utils/convert.py:250 | the slice f of `np.dot(pL, ten)` is pL·T_fᵀ, because numpy contracts over the second axis of the 3-D array |
| `Convert.LongitudinalPart` | elkoa/utils/convert.py:244-250 | the corrected longitudinal part: ValueError for NaN, None without a projector, and otherwise pL·T_f at every frequency |
| `Convert.LongitudinalPartProjects` | elkoa/utils/convert.py:244-250 | the corrected longitudinal part is NaN-free, is fixed by pL, is annihilated by pT, and taking it twice changes nothing |
| `Convert.LongitudinalAgreesOnSymmetric` | elkoa/utils/convert.py:250 | the as-written and the corrected longitudinal parts agree on every field whose slices are symmetric |
| `Convert.XYTensorParts` | elkoa/utils/convert.py:250 | for a field with only an xy entry and pL₀₀ = 1, the as-written xy entry is 0 and the corrected one is 1 |
| `Convert.ProjectorAlongX` | elkoa/utils/convert.py:53-80 | q = (1, 0, 0) has projectors, and pL₀₀ = 1 |
| `Convert.LongitudinalAsWrittenDiffers` | elkoa/utils/convert.py:250 | for q = (1, 0, 0) the as-written and the corrected longitudinal parts differ |
| `Convert.RefractiveIndexSquares` | elkoa/utils/convert.py:305-311 | n = √((abs(e) + Re e)/2) + i√((abs(e) − Re e)/2) lies in the first quadrant and n² = Re e + i·abs(Im e) |
| `Convert.Indices` | elkoa/utils/convert.py:290-311 | one refractive index per frequency; their values are stated by `Convert.IndicesSquares` |
| `Convert.IndicesSquares` | elkoa/utils/convert.py:290-311 | every computed index lies in the first quadrant and squares to its eigenvalue (imaginary part folded to ≥ 0) |
| `Convert.OrderedIndices` | elkoa/utils/convert.py:312-315 | the result is the two index rows, possibly swapped, so that n1[0] is not below n2[0] in numpy's lexicographic complex order |
| `Convert.IndexField` | elkoa/utils/convert.py:318-326 | entry 11 holds n1, entry 22 holds n2 and the other seven entries are NaN at every frequency |
| `Convert.RefractiveIndicesOf` | elkoa/utils/convert.py:271-327 | NaN raises ValueError; ‖q‖² < 1e-10 raises ValueError; no frequency raises IndexError at `n1[0]`; otherwise the ordered indices on the diagonal |
| `Convert.GetConverter` | elkoa/utils/convert.py:240-242 | succeeds for the four conversion method names and returns the one with that name; AttributeError for a name that is not an attribute of the converter |
| `Convert.GetConverterByName` | elkoa/utils/convert.py:240-242 | looking a conversion up by its own name returns it |
| `Convert.IdentityEsgs` | elkoa/utils/convert.py:138-149 | the loop fills n identity ESGs and inverse ESGs |
| `Convert.GeneralEsgs` | elkoa/utils/convert.py:155-157 | the loop fills esg[f] = pL + pre_f·pT and esgInv[f] = pL + pT/pre_f for every frequency |
| `Convert.IndexPairs` | elkoa/utils/convert.py:290-311 | the loop computes both index rows from the eigenvalues |
| `Convert.FillIndexField` | elkoa/utils/convert.py:318-326 | the loop over the nine elements builds the index field |
| `Convert.ComputeMembers` | elkoa/utils/convert.py:113-158 | the imperative `_buildMembers` computes exactly the derived members of its inputs |
| `Convert.Converter.Uninitialized` | elkoa/utils/convert.py:102-103 | the object starts uninitialized, before any setter runs |
| `Convert.Converter.BuildMembers` | elkoa/utils/convert.py:113-158 | inputs are untouched; an uninitialized object returns at once with nothing changed; otherwise the members become those of the inputs |
| `Convert.Converter.Store` | elkoa/utils/convert.py:116-158 | stores the derived members and changes no input field |
| `Convert.Converter.SetQ` | elkoa/utils/convert.py:182-185 | sets q, keeps the other inputs and rebuilds the members |
| `Convert.Converter.SetFreqs` | elkoa/utils/convert.py:164-168 | stores the frequencies in Hartree, sets numfreqs to their count and rebuilds the members |
| `Convert.Converter.SetEta` | elkoa/utils/convert.py:211-214 | sets η, keeps the other inputs and rebuilds the members |
| `Convert.Converter.SetOpticalLimit` | elkoa/utils/convert.py:220-226 | a non-bool raises TypeError and changes nothing; a bool is stored and the members are rebuilt |
| `Convert.Converter.SetRegularization` | elkoa/utils/convert.py:232-238 | anything but "conv" or "imp" raises ValueError and changes nothing; otherwise stored and the members are rebuilt |
| `Convert.Converter.Initialize` | elkoa/utils/convert.py:110-111 | setting the flag and building the members leaves a valid converter with its inputs unchanged |
| `Convert.Converter.New` | elkoa/utils/convert.py:102-111 | a non-bool opticalLimit raises TypeError, and a bad regularization then raises ValueError; otherwise a fresh valid converter holding the given inputs |
| `Convert.Converter.SigmaToEpsilon` | elkoa/utils/convert.py:252-260 | the loop computes `SigmaToEpsilonOf` of the object's ESGs and frequencies |
| `Convert.Converter.EpsilonToSigma` | elkoa/utils/convert.py:262-269 | the loop computes `EpsilonToSigmaOf` of the object's inverse ESGs and frequencies |
| `Convert.Converter.EpsilonToRefractiveIndices` | elkoa/utils/convert.py:271-327 | the loops compute `RefractiveIndicesOf` of the object's ‖q‖² |
| `Misc.IsTensorShapes` | elkoa/utils/misc.py:37-42 | (3,3,N) and (3,3) are tensors; (3,N) and (N,3,3) with N ≠ 3, one-dimensional shapes and the empty shape are not |
| `Misc.IsTensor` | elkoa/utils/misc.py:37-42 | a shape is a tensor exactly when it has at least two dimensions and the first two are 3 and 3 |
| `Misc.CheckStates` | elkoa/utils/misc.py:45-51 | nine states, each 1 (PartiallyChecked) exactly when that element is NaN at every frequency, and 2 (Checked) otherwise |
| `Misc.OneValueChecks` | elkoa/utils/misc.py:45-51 | one non-NaN value makes its element Checked |
| `Misc.RFind` | elkoa/utils/misc.py:57 | the last position of a character, or −1 |
| `Misc.SplitExt` | elkoa/utils/misc.py:57 | `os.path.splitext`: the two parts concatenate to the path, and the extension is empty or one dot-led piece without another dot or a "/" |
| `Misc.SplitExtOf` | elkoa/utils/misc.py:57 | splitting stem + ext returns (stem, ext) when the stem's last component is not only dots |
| `Misc.Split` | elkoa/utils/misc.py:60-61 | `str.split(c)` gives at least one piece and no piece contains c |
| `Misc.JoinSplit` | elkoa/utils/misc.py:60-61 | joining the pieces of a split with the separator gives back the string |
| `Misc.SplitJoin` | elkoa/utils/misc.py:60-61 | splitting pieces joined with a separator they do not contain gives back the pieces |
| `Misc.LowerEps` | elkoa/utils/misc.py:62 | `field.lower().startswith("eps")` holds exactly when the name's first three characters are e, p and s, each in either case |
| `Misc.ConvertFileNameToLatex` | elkoa/utils/misc.py:54-73 | the label of the extension-free name, followed by "$(\omega)$ [a.u.]" exactly when `unit` is set |
| `Misc.SplitEnds` | elkoa/utils/misc.py:60-61 | for FIELD_…_SUB the first piece is FIELD and the last is SUB |
| `Misc.LabelOfPieces` | elkoa/utils/misc.py:60-70 | the label of FIELD_…_SUB depends on FIELD and SUB as the four branches say |
| `Misc.LabelWithoutSeparator` | elkoa/utils/misc.py:67-68 | a name without "_" that is neither eps… nor SIGMA is its own subscript: "${s}_{s}$" |
| `Misc.LabelEmpty` | elkoa/utils/misc.py:69-70 | an empty name gives an empty label |
| `Misc.LatexOfPieces` | elkoa/utils/misc.py:54-73 | FIELD_…_SUB.EXT becomes the label of FIELD and SUB plus the unit suffix |
| `Elk.Tokens` | elkoa/utils/elk.py:37 | `str.split()` yields non-empty words that contain none of the characters `str.isspace()` accepts, ASCII or Unicode |
| `Elk.TokensUnwords` | elkoa/utils/elk.py:37 | splitting words joined by spaces gives back the words |
| `Elk.DecimalRoundTrip` | elkoa/utils/elk.py:53-54 | reading the decimal digits of n gives n |
| `Elk.ParseIntString` | elkoa/utils/elk.py:78 | `int()` reads back the printed form of every integer |
| `Elk.ParseInt` | elkoa/utils/elk.py:78 | `int()` of a token succeeds exactly for an optional sign followed by decimal digits; the sign decides the sign of the result, and plain digits read as their decimal value |
| `Elk.TokenKinds` | elkoa/utils/elk.py:46-54 | ".true."/".false." become booleans; anything else with a dot becomes a float or raises ValueError; decimal strings become ints; everything else stays a string |
| `Elk.ConvertTokens` | elkoa/utils/elk.py:46-54 | the conversion succeeds exactly when every token converts, and then converts each token in place |
| `Elk.ScanForValue` | elkoa/utils/elk.py:33-37 | a found value line lies after the first line, and a failure is StopIteration; `Elk.ScanFacts` states which line is found |
| `Elk.ScanFacts` | elkoa/utils/elk.py:33-37 | the value line follows the LAST line starting with the parameter; no such line gives None; a match on the last line raises StopIteration from `next(f)` |
| `Elk.ParameterLookup` | elkoa/utils/elk.py:28-44 | NameError exactly when no line starts with the parameter; a match on the last line gives StopIteration |
| `Elk.ParameterValue` | elkoa/utils/elk.py:46-59 | the value line's tokens are converted; a single token is returned bare and several as a list of the same length |
| `Elk.ReadElkInputParameter` | elkoa/utils/elk.py:28-59 | the imperative scan and conversion compute the specified parameter value |
| `Elk.ElkInputParameter` | elkoa/utils/elk.py:28-59 | the lookup raises only NameError, StopIteration or ValueError; when each is raised and what is returned is stated by `Elk.ParameterLookup` and `Elk.ParameterValue` |
| `Elk.Floats` | elkoa/utils/elk.py:79 | a list of floats exactly when every token is a float, and ValueError otherwise |
| `Elk.Ints` | elkoa/utils/elk.py:96 | a list of ints exactly when every token is an int |
| `Elk.WplotLines` | elkoa/utils/elk.py:77-79 | consumes three lines and sets nwplot and wplot, leaving every other key unchanged |
| `Elk.VecqlLines` | elkoa/utils/elk.py:81-82 | consumes two lines and sets only vecql |
| `Elk.FloatLine` | elkoa/utils/elk.py:84-88 | consumes two lines and sets only the given key (scale, swidth) |
| `Elk.AvecLines` | elkoa/utils/elk.py:90-93 | consumes four lines and sets only a1, a2 and a3 |
| `Elk.NgridkLines` | elkoa/utils/elk.py:95-96 | consumes two lines and sets only ngridk |
| `Elk.HeadOf` | elkoa/utils/elk.py:77-95 | the section a line opens is the first heading in the order of the elif chain that the line starts with, or none |
| `Elk.Section` | elkoa/utils/elk.py:75-96 | every step of the loop moves forward in the file; `Elk.SectionScope` and the section rows state what each step sets |
| `Elk.SectionScope` | elkoa/utils/elk.py:75-96 | a section changes only its own keys |
| `Elk.HeadFields` | elkoa/utils/elk.py:77-96 | different sections set disjoint keys |
| `Elk.FieldsNotHeadings` | elkoa/utils/elk.py:68-72 | no section key starts with "---" |
| `Elk.Stripped` | elkoa/utils/elk.py:68-72 | the template keeps every default except the "---" keys and adds nothing |
| `Elk.ParseElkInput` | elkoa/utils/elk.py:62-97 | the imperative line loop computes the specified parse of elk.in |
| `Elk.ParseElkInputOf` | elkoa/utils/elk.py:62-97 | a successful parse has no "---" heading key and no key outside the defaults and the section parameters |
| `Elk.ParseFromFramed` | elkoa/utils/elk.py:74-96 | the loop keeps every key outside the section keys as in the template, and never adds a "---" key |
| `Elk.ParsedKeys` | elkoa/utils/elk.py:62-97 | the result has no "---" key, keeps every non-section default and only adds section keys |
| `Elk.UnmatchedKeepDefaults` | elkoa/utils/elk.py:62-97 | a section that no line opens leaves its keys at their defaults |
| `Elk.WplotSection` | elkoa/utils/elk.py:77-79 | a wplot heading followed by a count and a range yields exactly nwplot and the first two range values |
| `Elk.AvecSection` | elkoa/utils/elk.py:90-93 | an avec heading followed by three vectors yields exactly a1, a2 and a3 |
| `Elk.LatticeDuality` | elkoa/utils/elk.py:133-134 | Aᵀ·B = 2π·I, so B is the dual lattice of A |
| `Elk.CellVolume` | elkoa/utils/elk.py:133-137 | vol_real = scale³·det(avec) |
| `Elk.QNormSquared` | elkoa/utils/elk.py:142-143 | qabs ≥ 0 and qabs² = ‖q_cart‖² |
| `Elk.ElkInput.constructor` | elkoa/utils/elk.py:126-147 | path defaults to the working directory; minw/maxw are wplot in eV; A = scale·avecᵀ, B = 2π(Aᵀ)⁻¹, bvec = Bᵀ, the volumes are det A and det B, q_cart = B·vecql, and qabs2 = qabs² |
| `Io.NaNArray` | elkoa/utils/io.py:66-69 | the padding block has the requested shape and only NaN entries |
| `Io.DropTwoRows` | elkoa/utils/io.py:100-101 | `field[:-2]` has two rows fewer (none below zero) and keeps an all-NaN block all NaN |
| `Io.Combine` | elkoa/utils/io.py:115-117 | `real + imag·1j` is NaN exactly when one of its parts is NaN |
| `Io.FirstLoaded` | elkoa/utils/io.py:72-76 | the first file that was read, and None exactly when no file was read |
| `Io.LastLoaded` | elkoa/utils/io.py:104 | the last file that was read (`load` after the loop), and None exactly when none was |
| `Io.Collect` | elkoa/utils/io.py:57-90 | the loop appends one block per element file; `Io.CollectCount` states the frequency count and the last file it records |
| `Io.CollectCount` | elkoa/utils/io.py:57-90 | numfreqsFile is None exactly when no file was read; otherwise numfreqs is taken from the first file read, and `load` is the last file read |
| `Io.CollectWf` | elkoa/utils/io.py:57-90 | every collected block is a well-formed array |
| `Io.Trim` | elkoa/utils/io.py:98-101 | trimming keeps one well-formed block per element; `Io.FinalBlockAt` states which blocks lose rows |
| `Io.TrimBlocks` | elkoa/utils/io.py:98-101 | the imperative trimming loop computes `Trim` |
| `Io.TensorField` | elkoa/utils/io.py:114-117 | entry [i][j][w] is the complex value of block 3i+j at frequency w |
| `Io.FillTensor` | elkoa/utils/io.py:114-117 | the imperative frequency loop builds `TensorField` |
| `Io.Frequencies` | elkoa/utils/io.py:104-120 | the frequencies are the first column of the last file, cut at numfreqs and converted to eV when `hartree` |
| `Io.Assemble` | elkoa/utils/io.py:103-112 | the reshape succeeds exactly when every block has the layout's size, and raises ValueError otherwise |
| `Io.FinalBlocks` | elkoa/utils/io.py:57-101 | nine well-formed blocks after collecting and trimming |
| `Io.FinalBlockAt` | elkoa/utils/io.py:96-101 | a two-column all-NaN block longer than 2·numfreqs loses its last two rows, and every other block is kept |
| `Io.ReadTensorWith` | elkoa/utils/io.py:26-122 | the imperative reader, which raises ValueError at the first malformed file, computes `TensorFrom`, whichever padding width a missing element gets |
| `Io.TensorOf` | elkoa/utils/io.py:26-122 | `readTensor` on files none of which is malformed raises only ValueError, and a result it returns is a (3,3,N) field with at most N frequencies |
| `Io.TensorFrom` | elkoa/utils/io.py:57-62 | a malformed element file raises ValueError, because `readTensor` catches only FileNotFoundError and OSError; (None, None) exactly when every file is missing; a returned field is (3,3,N) with at most N frequencies |
| `Io.AsOption` | elkoa/utils/io.py:146-165 | `readScalar` catches both a missing and a malformed file and returns None for either, and the array of a file that loads |
| `Io.ReadTensor` | elkoa/utils/io.py:26-122 | `readTensor` computes `TensorFrom` with the 2-column padding it writes |
| `Io.EntryAt` | elkoa/utils/io.py:105-112 | three-column files hold (ω, Re, Im) per row; two-column files hold Re in rows 0..N−1 and Im in rows N..2N−1 |
| `Io.TensorNone` | elkoa/utils/io.py:92-94 | the result is None exactly when none of the nine files was read |
| `Io.TensorFrequencies` | elkoa/utils/io.py:72-120 | the tensor's length comes from the first file read, and the frequencies from the last file read |
| `Io.MissingElementIsNaN` | elkoa/utils/io.py:62-69 | a missing element file yields an element that is NaN at every frequency |
| `Io.PresentElement` | elkoa/utils/io.py:103-117 | an element that was read holds its file's complex values |
| `Io.ThreeColumnDefect` | elkoa/utils/io.py:66-67 | in three-column mode one present and one missing element make `readTensor` raise ValueError |
| `Io.ThreeColumnReads` | elkoa/utils/io.py:57-117 | with (N,3) padding, consistent three-column files read into an N-frequency tensor holding each file's values |
| `Io.ElkFilesRead` | elkoa/utils/io.py:57-117 | consistent Elk two-column files read into an N-frequency tensor holding each file's values, also when numfreqs is off by one |
| `Io.ReadTenElk` | elkoa/utils/io.py:190-192 | two-column Hartree reading |
| `Io.ReadTen635` | elkoa/utils/io.py:195-197 | three-column Hartree reading |
| `Io.Broadcast` | elkoa/utils/io.py:182 | `real + imag·1j` succeeds exactly for equal lengths or a length-1 side (ValueError otherwise), and adds entrywise for equal lengths |
| `Io.ReadScalarOf` | elkoa/utils/io.py:125-187 | None exactly for a file that is missing or malformed (`AsOption` of its `Load`); otherwise the frequencies are column 0 of the file's rows, converted when `hartree` |
| `Io.ScalarThreeColumn` | elkoa/utils/io.py:167-170 | three-column reading raises IndexError exactly for fewer than three columns, and otherwise pairs columns 1 and 2 |
| `Io.ScalarElk` | elkoa/utils/io.py:171-175 | with 2N rows and numfreqs = N, the real parts are rows 0..N−1 and the imaginary parts rows N..2N−1 |
| `Io.ScalarWithoutCount` | elkoa/utils/io.py:171-175 | without numfreqs both slices are the whole column, so each value is x + ix |
| `Io.ScalarCountMismatch` | elkoa/utils/io.py:171-182 | a numfreqs that does not split the rows evenly makes the addition raise ValueError |
| `Io.ReadScalarElk` | elkoa/utils/io.py:200-202 | on an Elk file of 2·numfreqs rows the scalar field is read as the stacked real and imaginary halves |
| `Io.ReadScalar635` | elkoa/utils/io.py:205-207 | three-column reading with the frequencies converted to eV |
| `Io.Scalar635IgnoresCount` | elkoa/utils/io.py:205-207 | the result does not depend on numfreqs |
| `Io.ReadAdditionalData` | elkoa/utils/io.py:210-212 | three-column reading with the frequencies left unconverted |
| `Dicts.KeysOf` | elkoa/utils/dicts.py:137 | the keys of an insertion-ordered dict, in order |
| `Dicts.Lookup` | elkoa/utils/dicts.py:140 | a lookup fails exactly for an absent key |
| `Dicts.Assign` | elkoa/utils/dicts.py:141-158 | assigning keeps the key order, and a new key goes last |
| `Dicts.AssignLookup` | elkoa/utils/dicts.py:141-158 | after `d[k] = v`, k maps to v and every other key is unchanged |
| `Dicts.UpdateAllLookup` | elkoa/utils/dicts.py:141-158 | after `d.update(items)`, keys in items map to their new values and the others keep their old ones |
| `Dicts.UpdateAllFresh` | elkoa/utils/dicts.py:141-158 | updating with fresh keys appends them in order |
| `Dicts.Find` | elkoa/utils/dicts.py:138 | the first occurrence of the separator, or −1 |
| `Dicts.FindAfter` | elkoa/utils/dicts.py:138-139 | in prefix + sep + rest, where the prefix does not contain sep's first character, the separator is found right after the prefix |
| `Dicts.Before` | elkoa/utils/dicts.py:139 | `s.split(sep)[0]` is the text before the first separator, or all of s |
| `Dicts.TablesConsistent` | elkoa/utils/dicts.py:22-61 | the file-name, additional-data, reader and tab-name tables cover the same five tasks, with one entry per file for each |
| `Dicts.TabsLabelled` | elkoa/utils/dicts.py:55-78 | every tab name has a LaTeX label |
| `Dicts.Generic` | elkoa/utils/dicts.py:141-158 | the three generic converters, with distinct keys, in order |
| `Dicts.Augmented` | elkoa/utils/dicts.py:137-159 | the augmentation keeps the fields and their order; `Dicts.AugmentedLookup` and `Dicts.AugmentedAppends` state the new contents |
| `Dicts.AugmentConversions` | elkoa/utils/dicts.py:137-159 | the imperative loop over the fields computes `Augmented` |
| `Dicts.AugmentedLookup` | elkoa/utils/dicts.py:137-159 | a tensor field gains the generic converters and keeps the others; any other field is unchanged |
| `Dicts.AugmentedAppends` | elkoa/utils/dicts.py:137-159 | a tensor field's converters become its own followed by the generic ones for its base name |
| `Dicts.TensorFieldAugmented` | elkoa/utils/dicts.py:137-159 | the base name of "XTen" is X |
| `Dicts.EpsilonConversions` | elkoa/utils/dicts.py:103-159 | the dielectric tensor's converters after augmentation |
| `Dicts.SigmaConversions` | elkoa/utils/dicts.py:103-159 | the conductivity tensor's converters after augmentation |
| `Dicts.CatalogAugmented` | elkoa/utils/dicts.py:103-159 | the loop turns the literal table into the final `CONVERSION_DICT` |
| `Dicts.CatalogFacts` | elkoa/utils/dicts.py:103-159 | epsTen has 6 converters and sigTen 4; every tab is labelled; "nzq" marks exactly the refractive indices and the longitudinal part; "creg" marks exactly σ→ε; no function name is a Converter attribute |
| `Legacy.ReadTensor` | Utilities.py:250-346 | the legacy reader computes `TensorFrom` with the (N, 3) padding it writes; a malformed file raises ValueError as in io.py |
| `Legacy.GetTenElk` | Utilities.py:242-244 | two-column Hartree reading |
| `Legacy.GetTen635` | Utilities.py:246-248 | three-column Hartree reading |
| `Legacy.CollectTwoColumn` | Utilities.py:281-314 | in two-column mode the padding width of the three-column branch plays no part |
| `Legacy.TwoColumnAgrees` | Utilities.py:250-346 | on two-column files the legacy and the current readers agree |
| `Legacy.PaddingDecides` | Utilities.py:290-293 | with one missing element, three-column files fail with (N, 2) padding and read with (N, 3) padding, the missing element being NaN |
| `Legacy.InputFile` | Utilities.py:449-452 | the corrected path: "elk.in" without a folder, and folder/elk.in otherwise |
| `Legacy.PathJoin` | Utilities.py:450-456 | `os.path.join` on POSIX: an absolute second path replaces the first; otherwise the result starts with the first path and ends with the second, with at most one "/" added between them |
| `Legacy.InputFileAsWritten` | Utilities.py:450-456 | the file parseElkInput opens: "elk.in" without a folder, and otherwise the folder joined onto the corrected path once more |
| `Legacy.DoubleJoin` | Utilities.py:450-456 | as written, a relative folder d gives d/d/elk.in |
| `Legacy.AbsoluteJoin` | Utilities.py:450-456 | for an absolute folder the double join is harmless |
| `Legacy.Reals` | Utilities.py:465 | a float list exactly when every token is a float, and ValueError otherwise |
| `Legacy.Bounds` | Utilities.py:462 | the first two tokens as floats; ValueError for too few tokens or a bad float |
| `Legacy.ScanElkInput` | Utilities.py:457-468 | the imperative line loop computes the specified scan |
| `Legacy.ScanFrom` | Utilities.py:457-468 | the scan raises only StopIteration, IndexError or ValueError, and only when some later line is exactly "wplot", "vecql" or "scale" |
| `Legacy.ScanSkips` | Utilities.py:458-468 | lines other than exactly "wplot\n", "vecql\n" and "scale\n" change nothing |
| `Legacy.ScanAssigns` | Utilities.py:458-468 | wplot, vecqFrac and scale are only set when their exact heading line occurs |
| `Legacy.Scaled` | Utilities.py:482 | `vecqFrac * qscale` scales every component |
| `Legacy.SumSquaresScaled` | Utilities.py:482-488 | ‖c·v‖² = c²‖v‖² |
| `Legacy.SumSquaresNorm2` | Utilities.py:488 | `vecq.T·vecq` of a 3-vector is its squared norm |
| `Legacy.Rescale` | Utilities.py:478-482 | (x·π/scale)·scale = π·x |
| `Legacy.CartesianQ` | Utilities.py:478-482 | q_cart·scale = π·q_frac componentwise |
| `Legacy.FinishAsWritten` | Utilities.py:469-496 | succeeds exactly with wplot and vecql present and scale ≠ 0; a missing one raises UnboundLocalError, a zero scale ZeroDivisionError; vecq is always set |
| `Legacy.Finish` | Utilities.py:469-496 | the corrected ending: needs only wplot and a non-zero scale, with vecq None when vecql is missing |
| `Legacy.ParseElkInputAsWritten` | Utilities.py:447-496 | when parseElkInput as written succeeds it returns a q-vector and its squared norm, and the same result as the corrected parse |
| `Legacy.ParseElkInputOf` | Utilities.py:447-496 | the corrected parse returns a q-vector exactly when it returns a squared norm, and that norm is the sum of the squared components |
| `Legacy.ParseAgrees` | Utilities.py:447-496 | whenever vecql is present, or the as-written parse succeeds, both parses agree |
| `Legacy.ParseNeedsSections` | Utilities.py:447-496 | a successful parse saw a "wplot" line; the as-written one also saw "vecql" and always has a q-vector |
| `Legacy.ExactSectionNames` | Utilities.py:460-468 | a file without exact heading lines (for example "wplot" with a comment after it) raises UnboundLocalError |
| `Legacy.WithoutVecql` | Utilities.py:469-496 | without a vecql line the as-written parse raises UnboundLocalError, while the corrected one returns the wplot values in eV and no q-vector |
| `Legacy.QNormScales` | Utilities.py:478-488 | vecql2 = (π/scale)²·‖q_frac‖² |
| `Legacy.IdentityMinus` | Utilities.py:551 | `np.identity(3) - pL` broadcasts for a 3×3 or 1×1 pL (ValueError otherwise), and the result plus pL is the identity entrywise |
| `Legacy.OuterOf` | Utilities.py:550 | `np.dot(vecq, vecq.T)/vecql2` is square with the vector's size |
| `Legacy.BuildProjectionOperators` | Utilities.py:531-558 | None exactly when vecql2 < 1e-10; ValueError exactly for a non-zero q of a size other than 3 or 1 |
| `Legacy.ProjectorsAsConverter` | Utilities.py:531-558 | for a 3-vector the legacy projectors are those of the converter module, hence a projector pair |
| `Legacy.OneComponent` | Utilities.py:544-551 | a one-component q gives pL = [[1]] and pT = I − 1 by broadcasting: 0 on the diagonal, −1 elsewhere |
| `Legacy.ElkInputOf` | Utilities.py:428-445 | the corrected constructor, without INFO.OUT: the input carries the parsed values; projectors exist, together, exactly for a q-vector with vecql2 ≥ 1e-10; parse errors propagate |
| `Legacy.InputProjectors` | Utilities.py:437-445 | for a 3-component q the built projectors form a symmetric, idempotent, complementary pair |
| `Legacy.ParameterTokens` | Utilities.py:671-679 | None exactly when no line starts with the parameter; otherwise the tokens of the line after the last match; a match on the last line raises StopIteration |
| `Legacy.ReadElkInputParameter` | Utilities.py:671-679 | the imperative scan computes `ParameterTokens` |
| `Legacy.ParameterAsPackage` | Utilities.py:671-679 | the legacy None is the packaged NameError, and the packaged value is the legacy tokens auto-converted |
| `Legacy.LabelAsPackage` | Utilities.py:689-693 | the legacy EPSILON/SIGMA label is the packaged one with "(\omega)" moved inside the math |
| `Legacy.LatexAsPackage` | Utilities.py:681-696 | EPSILON and SIGMA names get the packaged label with "(\omega)" inside; any other name stays the bare stem |
| `Legacy.LatexOfPieces` | Utilities.py:681-696 | FIELD_…_IDX.EXT becomes the label of FIELD and IDX |
| `Legacy.ConvertFileNameToLatex` | Utilities.py:681-696 | an EPSILON or SIGMA file gets a "$…(\omega)$" label; any other file keeps its name without extension |

## Left out

- Floating point: every value is an exact real or complex number, and NaN is a separate value. Rounding, overflow and ±inf are not modelled.
- numpy's `sqrt` and `inv` and Python's `float()` are parameters. Their exactness is a lemma hypothesis where it matters.
- `Convert.RefractiveIndicesOf`: the random vector, the transverse basis and `numpy.linalg.eig` (elkoa/utils/convert.py:280-304) are not modelled. The eigenvalues are a parameter, and the model covers what is computed from them.
- `Convert.Derive`: requires that `_buildMembers` divides by no zero. numpy raises FloatingPointError at elkoa/utils/convert.py:153-157 when it does, and that error path is not modelled.
- `Convert.ComputeMembers`: the same precondition as `Convert.Derive`.
- `Convert.Converter.SetQ`: the same precondition as `Convert.Derive`, for an initialized object.
- `Convert.Converter.SetFreqs`: the same precondition as `Convert.Derive`, for an initialized object.
- `Convert.Converter.SetEta`: the same precondition as `Convert.Derive`, for an initialized object.
- `Convert.Converter.SetOpticalLimit`: the same precondition as `Convert.Derive`, for an initialized object.
- `Convert.Converter.SetRegularization`: the same precondition as `Convert.Derive`, for an initialized object.
- `Convert.Converter.BuildMembers`: requires, for an initialized object, that `_buildMembers` divides by no zero. numpy raises FloatingPointError at elkoa/utils/convert.py:153-157 when it does, and that path is not modelled.
- `Convert.Converter.Initialize`: the same precondition as `Convert.Derive`.
- `Convert.Converter.New`: the same precondition as `Convert.Derive`.
- `Convert.GetConverter`: dispatches only over the four conversion methods. In the source, `getattr` returns any attribute of the converter: "qabs2" gives a float, "freqs" the frequencies, "getConverter" a bound method. The model raises AttributeError for these names too.
- The Converter's `q` is a `Vec3`. The `np.atleast_2d(q).T` reshaping and the property deleters are not modelled.
- `Elk.TokenKinds`: `str.isdecimal()` is modelled for the ASCII digits 0-9 only. Python also accepts every other Unicode decimal digit, so a token such as "١٢" becomes the int 12 in Python and stays a string in the model.
- `Elk.Ints`: `int()` is modelled for an optional sign and ASCII digits (`Elk.ParseInt`). Python also accepts other Unicode decimal digits and single underscores between digits: "1_000" is 1000 in Python and raises ValueError in the model.
- `Elk.ParseInt`: the same restriction to an optional sign and ASCII digits, without underscores. It also applies to the `int()` of `Elk.FirstInt` (elk.py:78) and of `Legacy.ScanFrom` (Utilities.py:461).
- The `print` output of every function, `misc.matrixPrint`, `misc.shortenPath` and `ElkInput.printUserInformation` are not modelled.
- `np.loadtxt`: loading is abstracted to a `Load` per file: missing, malformed, or the 2-D array it returns. A file that loads as a one-dimensional array is not represented.
- Opening `elk.in` is not modelled: the readers take its lines. `os.getcwd()` is a parameter.
- `dicts.PARAMETER_LIST` and `dicts.PARAMETER_DICT` are not part of this model. `parseElkInput` takes its defaults map as a parameter.
- `Elk.ElkInput.constructor`: takes the parsed values already typed. The errors Python raises for a missing or mistyped key are not modelled. A singular lattice (numpy's LinAlgError) is excluded by the `inv` parameter.
- `Legacy.ElkInputOf`: models the constructor built on the corrected parser `Legacy.Finish`, without `parseElkInfoOut` (Utilities.py:498-529). The source calls it at Utilities.py:435, before building the projectors. A missing INFO.OUT raises at the `open` on Utilities.py:506, and one without the cell volume, k-point grid or electronic charge line raises UnboundLocalError at Utilities.py:529. The model returns Ok in both cases and does not keep the cell volume, charge or k-point count.
- `vecqlFrac` (Utilities.py:466) is computed only to be printed, so it is not modelled.
- `Utilities.Read.readScalar`, `getScalarElk`, `getScalar635` and `getAdditionalData` (Utilities.py:348-422) have the same text as their io.py counterparts. `Io.ReadScalarOf` and its wrappers model both.
- `Utilities.misc.isTensor` and `getStates` (Utilities.py:656-669) have the same text as `misc.isTensor` and `checkStates`. `Misc.IsTensor` and `Misc.CheckStates` model both.
- The GUI (`elkoa/gui`), plotting (`elkoa/utils/plot.py`, `Utilities.Plot`) and the application entry points are not modelled.

## Findings

| source | as written | input that shows it | evidently intended | confidence | as-written member | corrected member |
|---|---|---|---|---|---|---|
| elkoa/utils/convert.py:250 | `np.dot(pL, ten)` on the (3,3,N) array contracts pL with the tensor's second axis, giving pL·T_fᵀ at each frequency | q = (1,0,0) and a field whose only non-zero entry is xy = 1: the xy entry of the result is 0 | the longitudinal part pL·T_f, whose xy entry is 1 | not executed | `Convert.LongitudinalPartAsWritten`, `Convert.LongitudinalAsWrittenDiffers` | `Convert.LongitudinalPart`, `Convert.LongitudinalPartProjects` |
| elkoa/utils/io.py:66-67 | a missing element of a three-column tensor is padded with an (N, 2) NaN block, but present files are (N, 3), so the reshape raises ValueError | three-column files where element 11 is present and element 12 is missing | pad with (N, 3), as Utilities.py:290-291 does, so the missing element reads as NaN | not executed | `Io.ThreeColumnDefect` | `Io.ThreeColumnReads`, `Legacy.PaddingDecides` |
| Utilities.py:481-495 | the `vecq = None` branch is unreachable: without a "vecql" line, the print of `vecqFrac` at line 472 raises UnboundLocalError first | the lines "wplot\n", "10\n", "0 1\n" | no q-vector, so that `ElkInput` builds no projectors (Utilities.py:437-443) | not executed | `Legacy.FinishAsWritten`, `Legacy.WithoutVecql` | `Legacy.Finish`, `Legacy.ElkInputOf` |
| Utilities.py:450-456 | the folder is joined onto the file name twice | path "run": the file opened is run/run/elk.in | run/elk.in | not executed | `Legacy.InputFileAsWritten`, `Legacy.DoubleJoin` | `Legacy.InputFile` |
